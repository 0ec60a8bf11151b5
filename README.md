# EcoBand: band protocol session and real-time chart windows

This project models two parts of EcoBand in Dafny and proves properties of them.

- **The band driver (`Band.cs`).** It talks to a Mi-Band-style fitness band over BLE. It decodes step and heart-rate payloads. It reads and writes GATT characteristics only when they advertise the capability. It keeps a registry of callbacks so that each callback starts updates once. It caches the main service lazily. It sends fixed command sequences to start and stop step and heart-rate streaming. Its handlers raise `Steps` for every reading and `HeartRate` only for positive readings.
- **The dashboard's chart windows (`client/src/components/Home/index.js`).** Each measurement type has a bounded, time-ordered list of chart points. Real-time records are appended to it. A stale record becomes a gap marker, and a record older than the last point is dropped. A date-range query replaces the list with the records that fall inside the range.

## How the model is built

- `Gatt.dfy` describes the connected device as a value: a map from service UUID to characteristic UUID to a `Characteristic`. A `Characteristic` holds `canRead`, `canWrite`, the value a read returns, and how the transport behaves on it: `readFails`, `startFails`, and `acked`, the set of frames whose write it acknowledges. UUIDs are 16-bit short forms over the Bluetooth base UUID `0000xxxx-0000-1000-8000-00805f9b34fb`. Every UUID the driver uses has that form.
- `Band.dfy` — `Host` holds the two static fields of `Band` (`_mainService`, `_eventHandlers`). It also holds the log of radio operations issued against any device: `Discover`, `Read`, `Write`, `Attach`, `StartUpdates`. All `Band` objects of a session are built with the same `Host`, as every C# `Band` shares the same static fields; the lemma `CachedServiceIgnoresDevice` shows what that sharing means for the main-service cache. `Band` has one method per C# instance method that talks to the device, and each overload has its own name. The payload decoders `DecodeSteps` and `DecodeHeartRate` are module-level functions. `CacheMainService` has no C# counterpart: it is the lazy `_mainService` lookup that `GetCurrentSteps`, `StartMeasuringSteps`, `StopMeasuringSteps` and `StartMeasuringHeartRate` each begin with. Each feature operation also has a pure `...Outcome` function that gives its reply, the actions it appends and the new static state. Each method is proved equal to its function, and the lemmas state Band.cs's promises about the functions.
- `Chart.dfy` — `Window` is `{list, last, limit}` and `Home` owns the two windows. The component's `Object.assign` copies are shallow, so the handlers mutate the window objects in place; the methods model exactly that. `onItemAddedRealTime` keeps its backward scan as a `while` loop with `break`. `onItems` keeps its accumulating loop.
- Time is in milliseconds. `Date.now()` and `new Date()` are replaced by a `now` parameter.

Some details follow the code exactly:
- `new Date(null)` is the epoch, so `onChartReady`'s record has timestamp 0.
- date-fns `differenceInSeconds` truncates toward zero, so "more than 70 seconds" means at least 71 000 ms.
- `isAfter` is strict, so a record with the same time as the last point is kept.
- `shift()` on an empty array does nothing.

Behaviour of the driver's code worth noting:
- Failures are not separate error kinds: every failure becomes `null`, `false` or `-1`.
- The registry is keyed by callback identity, not by characteristic.
- A failed start is not rolled back: a callback added before a failing `StartUpdatesAsync` stays registered.
- There is no per-stream state machine and no busy rejection.
- The main-service cache is a static field, shared by every `Band` instance. The constructor empties the handler set but keeps the cached service.
- `StopMeasuringSteps` sends the same bytes `{0x3, 0x1}` as `StartMeasuringSteps`.
- `onItems` puts every in-range record, of either type, into the window of the last record's type.

## Model

| member | source | states |
|---|---|---|
| `BandProtocol.DecodeSteps` | Band.cs:512-514 | Fails exactly when the payload is shorter than 2 bytes. Otherwise the value is in 0..65535, its low byte is byte 0 and its high byte is byte 1. |
| `BandProtocol.StepsRoundTrip` | Band.cs:512-514 | Decoding the two-byte little-endian frame of any count in 0..65535 gives that count back. |
| `BandProtocol.StepsIgnoreTrailingBytes` | Band.cs:512-514 | Bytes after index 1 are ignored. Re-encoding a decoded count gives back the first two bytes. |
| `BandProtocol.DecodeHeartRate` | Band.cs:504-510 | A `[0x06, bpm]` frame gives `bpm`. Any other non-empty payload gives byte 0. An empty payload fails. The value is always in 0..255. |
| `BandProtocol.HeartRateRoundTrip` | Band.cs:504-505 | A standard frame `[0x06, bpm]` decodes to `bpm` for every byte. |
| `BandProtocol.HeartRateFallback` | Band.cs:504-510 | `[x]` gives x, `[0x01,0x02]` gives 1, `[0x06,0x48]` gives 72, and a 3-byte frame starting with 6 gives 6. |
| `BandProtocol.ReadOutcome` | Band.cs:320-335 | A device read is issued only when the characteristic is readable. The reply is null when the characteristic is missing, not readable, or the read throws; otherwise it is the characteristic's value. |
| `BandProtocol.WriteOutcome` | Band.cs:373-388 | A device write is issued only when the characteristic is writable. The reply is true exactly when the write was issued and acknowledged. |
| `Gatt.Resolve` | Band.cs:342-350 | A characteristic resolves only when its service is non-null and has it. Otherwise the caller's catch gives null or false. |
| `BandProtocol.SubscribeOutcome` | Band.cs:426-443 | A missing characteristic fails and leaves the registry alone. A registered callback succeeds and issues nothing. A new callback is registered, attached and started, and the reply is false only when the start throws. |
| `BandProtocol.SubscribeIsIdempotent` | Band.cs:430-436 | After one subscription, subscribing the same callback again succeeds, issues no action and leaves the registry unchanged. |
| `BandProtocol.FailedStartStaysRegistered` | Band.cs:430-441 | A failed start returns false but leaves the callback registered. Every later subscription with it then succeeds without starting updates. |
| `BandProtocol.MainServiceLookup` | Band.cs:183 | The main service is discovered only when the cache is null. A cached service is returned with no action. |
| `BandProtocol.StepsReading` | Band.cs:185-192 | Gives -1 exactly for a null payload or one shorter than 2 bytes. Otherwise it gives the decoded count in 0..65535. |
| `BandProtocol.CurrentSteps` | Band.cs:179-194 | Gives -1 exactly when the main service is null, the steps characteristic is missing, unreadable or its read throws, or the payload is shorter than 2 bytes. Otherwise it gives byte0 + 256·byte1. |
| `BandProtocol.CurrentStepsOutcome` | Band.cs:179-194 | GetCurrentSteps keeps the handler registry, caches the looked-up main service, and replies with `CurrentSteps` of that service. |
| `BandProtocol.CurrentStepsExamples` | Band.cs:179-194 | A `[0x0A, 0x00]` payload reads as 10. A device without the main service gives -1. |
| `BandProtocol.StartStepsOutcome` | Band.cs:196-213 | StartMeasuringSteps caches the looked-up main service. It registers the callback exactly when the service has `ff06`. It succeeds exactly when `ff06` is present and its updates start (or the callback was already registered) and `ff05` takes the start write. |
| `BandProtocol.StopStepsOutcome` | Band.cs:215-230 | StopMeasuringSteps caches the looked-up main service and keeps the registry. It succeeds exactly when `ff05` takes the write. Every write it issues carries the stop frame. |
| `BandProtocol.StartStepsSequence` | Band.cs:196-213 | With the characteristics present and a new callback, the actions are exactly attach and start-updates on `ff06`, then a write of `{0x3,0x1}` to `ff05`. The reply is the conjunction of both results. |
| `BandProtocol.StartStepsTwice` | Band.cs:200-206 | A second StartMeasuringSteps issues only the start-frame write. It never subscribes again, and the cache and registry are unchanged. |
| `BandProtocol.StopStepsRepeatsStartFrame` | Band.cs:104-105 | StopMeasuringSteps issues exactly the write StartMeasuringSteps issues, with the same bytes `{0x3,0x1}`. |
| `BandProtocol.HeartRateSubscribeOutcome` | Band.cs:481-502 | SubscribeToHeartRate begins by discovering `180d`. It registers the callback exactly when that service has `2a37`. It succeeds exactly when `2a37` is present and its updates start (or the callback was already registered) and `2a39` takes writes. |
| `BandProtocol.StartHeartRateOutcome` | Band.cs:232-253 | StartMeasuringHeartRate caches the looked-up main service. It registers the callback exactly as SubscribeToHeartRate does. It succeeds exactly when `ff04` takes the user-info write and the heart-rate subscription succeeds. |
| `BandProtocol.StopHeartRateOutcome` | Band.cs:255-274 | StopMeasuringHeartRate begins by discovering `180d`, which it does not cache. It succeeds exactly when `2a39` takes the write. |
| `BandProtocol.HeartRateStopPrecedesStart` | Band.cs:488-495 | In SubscribeToHeartRate, every start-continuous write comes directly after a stop-continuous write to the same control point. |
| `BandProtocol.HeartRateStartSequence` | Band.cs:232-253 | With everything present and writable and a new callback, the actions are exactly: user-info write, heart-rate service discovery, attach and start on `2a37`, `{0x15,1,0}`, then `{0x15,1,1}` to `2a39`. The reply is the conjunction of the four results: the user-info write, the start of updates, and each of the two control-point writes. |
| `BandProtocol.HeartRateStartFrameRejected` | Band.cs:488-495 | When `2a39` acknowledges the stop frame but not the start frame, both frames are still written and SubscribeToHeartRate fails. |
| `BandProtocol.StopHeartRateWritesOnlyStop` | Band.cs:255-274 | StopMeasuringHeartRate discovers the heart-rate service, then issues at most one write, and that write is `{0x15,1,0}`. |
| `BandProtocol.MainServiceFetchedOnlyWhenUncached` | Band.cs:183 | With an empty cache, each main-service operation begins by discovering `fee0`. With a cached service, none discovers it, and the cache is kept. |
| `BandProtocol.CachedServiceIgnoresDevice` | Band.cs:169 | Once the static cache holds a service, the steps operations behave the same whatever device the calling Band was made for. |
| `BandProtocol.StepsDelivery` | Band.cs:283-295 | A payload shorter than 2 bytes makes the decoder throw. Every other payload raises its decoded count, including 0. A step reading is never suppressed. |
| `BandProtocol.HeartRateDelivery` | Band.cs:297-311 | An empty payload throws. A decoded 0 is suppressed. A positive value is raised. |
| `BandProtocol.ZeroReadings` | Band.cs:283-311 | A zero heart rate is suppressed and zero steps are raised. `[0x06,0x48]` raises 72. |
| `BandProtocol.Host.constructor` | Band.cs:169-170 | The shared static state starts with no cached main service, an empty handler registry and an empty log. In C# `_eventHandlers` starts as `null`, with no initializer, but no operation can observe that: every `Band` constructor replaces it with an empty set before any method runs. |
| `BandProtocol.Band.constructor` | Band.cs:14-18 | Re-creates the shared handler registry as empty. Leaves the cached main service and the log as they were. |
| `BandProtocol.Band.GetServiceAsync` | Band.cs:183 | Logs a discovery of the UUID on this Band's device and returns that service or null. |
| `BandProtocol.Band.CacheMainService` | Band.cs:183 | Follows `MainServiceLookup`: the cache and the log afterwards are the lookup's. |
| `BandProtocol.Band.ReadFromCharacteristic` | Band.cs:320-335 | Reply and log as `ReadOutcome` gives for the characteristic. |
| `BandProtocol.Band.ReadFromServiceCharacteristic` | Band.cs:337-352 | Reply and log as `ReadOutcome` gives for the characteristic resolved in the possibly null service. |
| `BandProtocol.Band.ReadFromDeviceCharacteristic` | Band.cs:354-371 | Logs the service discovery, then replies and logs as `ReadOutcome` for the resolved characteristic. |
| `BandProtocol.Band.WriteToCharacteristic` | Band.cs:373-388 | Reply and log as `WriteOutcome` gives. |
| `BandProtocol.Band.WriteToServiceCharacteristic` | Band.cs:390-405 | Reply and log as `WriteOutcome` gives for the characteristic resolved in the possibly null service. |
| `BandProtocol.Band.WriteToDeviceCharacteristic` | Band.cs:407-424 | Logs the service discovery, then replies and logs as `WriteOutcome` for the resolved characteristic. |
| `BandProtocol.Band.SubscribeTo` | Band.cs:426-443 | Reply, registry and log as `SubscribeOutcome` gives. |
| `BandProtocol.Band.SubscribeToServiceCharacteristic` | Band.cs:445-460 | Reply, registry and log as `SubscribeOutcome` gives for the characteristic resolved in the possibly null service. |
| `BandProtocol.Band.SubscribeToDeviceCharacteristic` | Band.cs:462-479 | Logs the service discovery, then as `SubscribeOutcome`. |
| `BandProtocol.Band.SubscribeToHeartRate` | Band.cs:481-502 | Reply, registry and log as `HeartRateSubscribeOutcome` gives. It discovers the service, subscribes to `2a37`, then writes stop and start. A missing control point still subscribes and then fails. |
| `BandProtocol.Band.GetCurrentSteps` | Band.cs:179-194 | Result, cache and log as `CurrentStepsOutcome` gives. |
| `BandProtocol.Band.StartMeasuringSteps` | Band.cs:196-213 | Reply, registry, cache and log as `StartStepsOutcome` gives, with this Band's `OnSteps` callback. |
| `BandProtocol.Band.StopMeasuringSteps` | Band.cs:215-230 | Reply, cache and log as `StopStepsOutcome` gives. |
| `BandProtocol.Band.StartMeasuringHeartRate` | Band.cs:232-253 | Reply, registry, cache and log as `StartHeartRateOutcome` gives, with this Band's `OnHeartRate` callback. |
| `BandProtocol.Band.StopMeasuringHeartRate` | Band.cs:255-274 | Reply and log as `StopHeartRateOutcome` gives. The heart-rate service is discovered afresh. |
| `BandProtocol.Band.OnSteps` | Band.cs:283-295 | Appends the decoded count to the raised Steps values exactly when `StepsDelivery` raises it. |
| `BandProtocol.Band.OnHeartRate` | Band.cs:297-311 | Appends the decoded value to the raised HeartRate values exactly when `HeartRateDelivery` raises it, which needs a positive value. |
| `Chart.DifferenceInSeconds` | client/src/components/Home/index.js:197 | The whole seconds between the two times, truncated toward zero, in both signs. |
| `Chart.IsStale` | client/src/components/Home/index.js:197 | A record is stale (more than 70 whole seconds old) exactly when it is at least 71 000 ms older than now. |
| `Chart.LastSampleIndex` | client/src/components/Home/index.js:186-194 | The index of the rightmost non-gap point, or -1. Every point after it is a gap. |
| `Chart.LastItem` | client/src/components/Home/index.js:186-194 | None exactly when every point is a gap. Otherwise it is a non-gap point with only gaps after it. |
| `Chart.Admit` | client/src/components/Home/index.js:196-199 | The stored point is a gap exactly when the record is stale. A stored sample is the record's own point and is no earlier than the last non-gap point. |
| `Chart.AdmitCases` | client/src/components/Home/index.js:196-199 | A stale record becomes a gap and is never dropped. A record is dropped exactly when it is fresh and the last non-gap point is later. Otherwise it is stored as itself. |
| `Chart.ChartReadyInjectsGap` | client/src/components/Home/index.js:207-219 | The synthetic record of onChartReady becomes a gap marker once now is at least 71 s past the epoch. |
| `Chart.Shift` | client/src/components/Home/index.js:201 | An empty list stays empty. Otherwise the first element is removed and the rest keep their positions, one place earlier. |
| `Chart.Appended` | client/src/components/Home/index.js:201-203 | The new point is last. The list grows by at most one, and at the limit its length stays the same. |
| `Chart.AppendedShape` | client/src/components/Home/index.js:201-203 | Below the limit the list grows by one. At or above it, only the first element is dropped. The new point is last and the survivors keep their order. |
| `Chart.AppendedKeepsBound` | client/src/components/Home/index.js:201-203 | A window no longer than max(limit, 1) stays within that bound. |
| `Chart.AppendPreservesOrder` | client/src/components/Home/index.js:201-203 | Shifting and then pushing a point no earlier than every point keeps the non-gap points in time order. |
| `Chart.AdmitPreservesOrder` | client/src/components/Home/index.js:186-203 | A record that is admitted keeps a time-ordered window time-ordered. |
| `Chart.Filtered` | client/src/components/Home/index.js:159-170 | Never longer than the records. Every kept point is a sample inside the inclusive range. |
| `Chart.FilteredConcat` | client/src/components/Home/index.js:159-170 | The filter distributes over concatenation, so kept records stay in iteration order. |
| `Chart.FilteredSingle` | client/src/components/Home/index.js:168 | One record is kept exactly when its timestamp lies in the inclusive range. |
| `Chart.FilteredMembers` | client/src/components/Home/index.js:159-170 | Every in-range record's point is kept, and every kept point comes from an in-range record. |
| `Chart.Widened` | client/src/components/Home/index.js:247 | A range with equal ends keeps its start and gets exactly one day (86 400 000 ms) added to its end. Any other range is unchanged. A widened range never has equal ends. |
| `Chart.WidenedIsIdempotent` | client/src/components/Home/index.js:247 | Widening twice equals widening once. |
| `Chart.Window.constructor` | client/src/components/Home/index.js:134-143 | A window starts with an empty list and the given `last` and limit, as each of the two window literals in the initial state does. |
| `Chart.Home.constructor` | client/src/components/Home/index.js:131-147 | Both windows start empty with limit 25 and `last` at the construction time. Real-time mode is on, the modal is closed, and no range is picked. |
| `Chart.Home.SetChartData` | client/src/components/Home/index.js:341-348 | The type's list becomes the new array and `last` the new point's time. The limit and the other window are untouched. |
| `Chart.Home.SetLimit` | client/src/components/Home/index.js:350-359 | Both limits become n and both lists empty. `last` is kept. |
| `Chart.Home.OnRealTimeButtonClick` | client/src/components/Home/index.js:221-228 | Resets both windows to limit 25 and turns real-time mode on. |
| `Chart.Home.OnDateRangeButtonClick` | client/src/components/Home/index.js:230-233 | Resets both windows to limit 50, leaves real-time mode and opens the modal. |
| `Chart.Home.OnItemAddedRealTime` | client/src/components/Home/index.js:175-205 | When the record is dropped, the window is unchanged. Otherwise the list is the bounded append of the admitted point and `last` is its time. The limit and the other window are untouched. |
| `Chart.Home.OnChartReady` | client/src/components/Home/index.js:207-219 | The same as a real-time record with null value and timestamp 0. |
| `Chart.Home.OnItems` | client/src/components/Home/index.js:154-173 | Completes exactly when there are records and a range whose start is not after its end; otherwise nothing changes. The last record's window then gets the filtered points, and `last` becomes that record's time. |
| `Chart.Home.OnDateRangeModalOkButtonClick` | client/src/components/Home/index.js:242-259 | Closes the modal. It widens the component's own range when its ends coincide and returns that range to query. With no range picked it fails. |

## Left out

- Transport outcomes are fixed per characteristic for the whole model. A read always returns the characteristic's one `value` and always fails or always succeeds. Its updates always start or always fail. A given frame written to it is always acknowledged alike. So `CurrentStepsOutcome` reads the same count on every call, and the two start writes of `StartStepsTwice` get the same answer. A value that changes between operations, or a link that drops partway through a sequence and then repeats a frame, is not modelled. Different frames are answered separately, so the stop and start writes of `HeartRateSubscribeOutcome` can differ (`HeartRateStartFrameRejected`).
- BLE calls are replaced by the device table and the action log. `GetServiceAsync` and `GetCharacteristicAsync` return the entry or null and never throw. Band.cs differs in two places. A throwing main-service discovery in `StartMeasuringHeartRate` skips the heart-rate subscription. A throwing control-point lookup in `SubscribeToHeartRate` skips the subscription. The model follows the null path in both.
- `async`/`Task`, event-delegate concurrency and React's batching of `setState` are left out. Every operation is one sequential step.
- `UserProfile.toByteArray` and `Device.NativeDevice.Address` are not part of this model. The user-info payload is an opaque parameter of `StartMeasuringHeartRate`.
- `Log` calls are left out, and so is the list of subscribers to the `Steps` and `HeartRate` events. A raised value is recorded whether or not anyone listens.
- An exception thrown out of `OnSteps` or `OnHeartRate` is only reported as `Failed`. What Plugin.BLE then does with it is not modelled.
- Catalogue constants that no modelled operation uses are left out: notification and battery codes, test, vibration, sleep and manual commands, unused UUIDs, `NAME_FILTER` and `MAC_ADDRESS_FILTER`.
- Firebase initialisation, subscriptions and queries are left out. `OnDateRangeModalOkButtonClick` returns the range to query, and the query result is what `OnItems` gets.
- `onDateRangeModalCancelButtonClick` only closes the modal, and `onDateRangeModalClose` does nothing. Both are left out.
- Chart options, `render`, the modal, the theme and `injectTapEventPlugin` are left out. `onDateRangeSelected` is left out too, because its condition is always true.
- Widened: one day is a fixed 86 400 000 ms. `moment.add(1, 'days')` keeps the local time of day, so across a daylight-saving change the actual widening is 23 or 25 hours.
- Record types other than the two measurement types are left out (the component throws a TypeError on them), and so are records whose timestamp is not a number.
