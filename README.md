# homey-elvia meter poller, modelled in Dafny

A Homey app that reads hourly electricity consumption from the Elvia metering
API and publishes one `measure_power` value per metering point. This project
models its core: the per-device poller (`drivers/meter/device.ts`) and the
driver that resets the token, restarts every device and lists metering points
for pairing (`drivers/meter/driver.ts`).

Files, one module each:

- `wrappers.dfy` (`Wrappers`): `Option`, standing for JavaScript's `undefined`/`null`.
- `js_text.dfy` (`JsText`): `n.toString()` for integers, and the decimal reading that inverts it.
- `metering_api.dfy` (`MeteringApi`): the API answer. Every level is optional, as the source's
  optional chaining allows. Also the request, the `Authorization` header and the "token" setting
  (`Undefined`, `Null` or a string).
- `device.dfy` (`Device`): picking the metering point and its first sample, the publish guard,
  and the specification functions of the device operations over a `PollerState` value
  (`SetCapSpec`, `FetchSpec`, `RestartSpec`, `InitSpec`, `DeletedSpec`, `RestartMany`).
  It also holds the timer discipline `TimerInv`, the lemmas about all of these, and the class
  `MeterDevice`. Each method of that class is proved to produce exactly the state its
  specification function gives.
- `driver.dfy` (`Driver`): padding, pairing timestamps and query, pairing records, and the class
  `MeterDriver`: `resetClient`, the settings handlers, `onInit` and `onPairListDevices`.

The host is modelled as fields:
- `live`: the intervals the host runs for a device, with `issued` handing out fresh handle ids.
- `caps`: the capability values.
- `writes`: the log of `setCapabilityValue` calls.
- `warning`: the device warning.
- `sent`: the log of requests handed to HTTP.
- `token`: the "token" setting.
- `devices`: what `getDevices()` returns.
- `subscribed`: the settings events the driver subscribed to.

Each poll gets a `PollEnv` value. It says whether the plumbing before the request throws, what
the two formatted timestamps are, and how the HTTP call settles. Async code is read as
sequential code.

Behaviour of the code worth knowing:

- An absent token is sent as `"Bearer null"` (after `resetClient`) or `"Bearer undefined"`
  (never set), because the header is built by string concatenation.
- `resetClient` stores null as the token on every settings `set` and `unset`. So a token just
  set is replaced by null before any device reads it (`ResetRestartSendsNullBearer`).
- A failed request is only logged: it sets no warning, and the previous value stays published.
- When the poll throws inside `fetchAndRestartTimer`, no new interval is armed. The old one has
  already been cleared, and the `timer` field keeps the stale handle.
- The poller's request runs from the top of the hour two hours ago (`startTime`) to the top of
  the previous hour (`endTime`), because moment's `subtract` mutates the moment. The hours are
  local hours labelled `+00:00`. The model takes both timestamps as given strings.
- When the answer has no `meteringpoints`, `onPairListDevices` returns `undefined` (`Missing`).
- For hour 0 the previous hour is padded as `"0-1"`. The pairing query then carries no valid
  start time (`MidnightQuirk`).

## Model

| member | source | states |
|---|---|---|
| `Device.FindPoint` | drivers/meter/device.ts:49 | the result is an entry of the list carrying the device id; there is none exactly when no entry carries that id |
| `Device.FindPointIsFirstMatch` | drivers/meter/device.ts:49 | `find` returns the first entry whose `meteringPointId` is the device id |
| `Device.LaterDuplicatesIgnored` | drivers/meter/device.ts:49-50 | once a matching entry exists, appending entries (duplicates included) changes neither the found point nor the extracted value |
| `Device.ExtractValueIsFirstSample` | drivers/meter/device.ts:49-51 | the extracted value is `v` iff `meteringpoints` is present and the first matching point has `metervalue`, `timeSeries`, a first element and value `v`; any missing level or an empty series gives no value |
| `Device.PollPublishesFirstSampleInWatts` | drivers/meter/device.ts:49-57 | a poll whose answer's first entry for the device has first sample `v`: -255 leaves capabilities and writes unchanged; any other `v` leaves `measure_power` at `v * 1000` and writes it once unless it already held that value; a sample of 1.5 is written as 1500 |
| `Device.SetCapWritesOnChange` | drivers/meter/device.ts:13-19 | afterwards the capability holds the value; no write when it already held it, otherwise exactly one write of that value; nothing else changes |
| `Device.SetCapIdempotent` | drivers/meter/device.ts:13-19 | setting the same value twice equals setting it once |
| `Device.FetchPublishesOnlyValidValues` | drivers/meter/device.ts:42-57 | a poll past the plumbing resolves and sends one request with the bearer header; a failed request leaves capabilities and writes unchanged (the sentinel stays); an absent or -255 value leaves capabilities and writes unchanged; a scaled value equal to the published one changes nothing but the request log; any write is `measure_power` = extracted value * 1000 with that value present and not -255 |
| `Device.FetchPublishesNewValue` | drivers/meter/device.ts:49-57 | a present, non-sentinel value whose scaled form differs from the current one is written once, as `value * 1000` |
| `Device.FetchFaultWarns` | drivers/meter/device.ts:61-64 | a throw in the poll is re-raised unchanged; only an `Error` sets the warning to its message; nothing else changes |
| `Device.FetchKeepsTimer` | drivers/meter/device.ts:21-66 | a poll never touches the timer field or the running intervals, so a failing tick leaves its interval running |
| `Device.AtMostOneInterval` | drivers/meter/device.ts:68-73 | under the timer discipline no interval runs, or only the one the `timer` field holds |
| `Device.RestartNeverStacks` | drivers/meter/device.ts:68-73 | a restart keeps the discipline; it resolves iff the poll does not throw; resolved, exactly one fresh 60000 ms interval runs and the old one is cleared; rejected, none runs, the `timer` field is unchanged and the thrown value is passed on |
| `Device.RepeatedRestartsHoldOneTimer` | drivers/meter/device.ts:68-73 | after any number of restarts at most one interval runs, and exactly one when the last restart's poll did not throw |
| `Device.InitTurnsErrorsIntoWarnings` | drivers/meter/device.ts:78-87 | `onInit` rejects only when the restart threw a non-`Error` value; an `Error` becomes the warning and leaves no interval running; a clean start leaves exactly one interval |
| `Device.DeletedStopsPolling` | drivers/meter/device.ts:116-118 | after `onDeleted` no interval runs; only the running set changes |
| `Device.MeterDevice.constructor` | drivers/meter/device.ts:9-11 | a new device holds no timer and no running interval; its capability values and warning are those the host stored for it |
| `Device.MeterDevice.SetCap` | drivers/meter/device.ts:13-19 | the new state is `SetCapSpec` of the old state, and the timer discipline is kept |
| `Device.MeterDevice.FetchFromService` | drivers/meter/device.ts:21-66 | the new state and outcome are `FetchSpec` of the old state, and the timer discipline is kept |
| `Device.MeterDevice.FetchAndRestartTimer` | drivers/meter/device.ts:68-73 | the new state and outcome are `RestartSpec` of the old state, and the timer discipline is kept |
| `Device.MeterDevice.Tick` | drivers/meter/device.ts:72 | a firing interval polls and leaves the timer field and running intervals unchanged |
| `Device.MeterDevice.OnInit` | drivers/meter/device.ts:78-87 | the new state and outcome are `InitSpec` of the old state |
| `Device.MeterDevice.OnDeleted` | drivers/meter/device.ts:116-118 | the new state is `DeletedSpec` of the old one and no interval runs |
| `MeteringApi.BearerHeaderCarriesToken` | drivers/meter/device.ts:46 | the header is `"Bearer "` followed by the token's text; a null token is sent as `"Bearer null"` |
| `JsText.NatToStringRoundTrip` | drivers/meter/driver.ts:71-74 | the decimal rendering of a natural number is all digits and reads back as the number |
| `JsText.NatToStringLength` | drivers/meter/driver.ts:71-74 | one digit below 10, two digits from 10 to 99, four digits from 1000 to 9999 |
| `Driver.PadTwoDigits` | drivers/meter/driver.ts:71-73 | for 0 to 99 the padding has length 2, is all digits and reads back as the number |
| `Driver.MidnightQuirk` | drivers/meter/driver.ts:74 | the previous hour of hour 0 pads to `"0-1"`, so the start timestamp and the whole pairing query do not parse |
| `Driver.StampRoundTrip` | drivers/meter/driver.ts:79 | a timestamp is 25 characters long, ends in `:00:00+02:00` and reads back as its year, month, day and hour |
| `Driver.PairingPathWindow` | drivers/meter/driver.ts:79 | the pairing query reads back as the same date twice, the previous hour as start and the current hour as end |
| `Driver.PairRecordsOneToOne` | drivers/meter/driver.ts:83-90 | the records keep the length and order of the metering points, each with name and id equal to its `meteringPointId` |
| `Driver.ResetRestartSendsNullBearer` | drivers/meter/driver.ts:10-13 | a restart run by `resetClient` sends its request with the header `"Bearer null"` |
| `Driver.MeterDriver.constructor` | drivers/meter/driver.ts:6 | the driver starts with the given devices and token and no subscriptions |
| `Driver.MeterDriver.SaveToken` | drivers/meter/driver.ts:16-18 | the token setting becomes the given value |
| `Driver.MeterDriver.ResetClient` | drivers/meter/driver.ts:8-14 | the token is null, and every device is restarted exactly once with the null token, with none skipped or repeated (the order is not observable, since devices share no state), even when a restart rejects |
| `Driver.MeterDriver.OnSettingsSet` | drivers/meter/driver.ts:25-28 | the `set` handler performs `resetClient` |
| `Driver.MeterDriver.OnSettingsUnset` | drivers/meter/driver.ts:29-32 | the `unset` handler performs `resetClient` |
| `Driver.MeterDriver.OnInit` | drivers/meter/driver.ts:23-35 | both the `set` and the `unset` events are subscribed |
| `Driver.MeterDriver.Notify` | drivers/meter/driver.ts:25-32 | a subscribed settings event, `set` or `unset`, resets the token and restarts every device once; an unsubscribed one changes nothing |
| `Driver.MeterDriver.OnPairListDevices` | drivers/meter/driver.ts:58-97 | the query is the pairing window and the header carries the stored token; a failed request gives the empty list; a missing `meteringpoints` gives `undefined`; otherwise one record per point, in order, name and id equal to its id |

## Left out

- HTTP client construction and the disabled certificate check (device.ts:23-34, driver.ts:45-56): foreign I/O. The request is a `Request` value in a log, and its answer is a `Reply` parameter.
- The poller's timestamps (device.ts:38-40) come from moment and the local clock. They are opaque strings in `PollEnv`. The pairing date and hour (driver.ts:60-64) are parameters.
- Host platform calls are modelled as fields: settings persistence, `setCapabilityValue`, `setWarning`, `getDevices`, `setInterval` and `clearInterval`. A failure of `setCapabilityValue` or `setWarning` is not modelled.
- Async scheduling: every call runs to completion in order. The model does not cover interleaving between devices, the un-awaited `setCap` and restarts, or the re-entry of the `set` event when `saveToken` writes the setting. `RepeatedRestartsHoldOneTimer` holds for restarts that run one after another. In the source, overlapping restarts of one device can leave two intervals running: `fetchAndRestartTimer` awaits the poll between clearing and arming (device.ts:71), `resetClient`'s `forEach` does not await the restarts (driver.ts:13), and a device's `onInit` restart can overlap one from `resetClient`.
- Numbers are exact reals and equality is plain equality. The model does not cover floating-point rounding of `value * 1000`, JavaScript's loose `==` (a numeric `meteringPointId`, a string value), or `null` entries in the point list.
- Logging (`this.log`, `console.log`) and the hooks `onAdded` and `onSettings`: they have no effect on state.
- The key passed to the settings handlers is ignored, as in the source.
