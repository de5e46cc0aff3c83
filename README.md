# Tuya radar sensor driver, modelled in Dafny

This project models the core of the Zigbee driver for a Tuya radar presence
sensor (`drivers/radar_sensor_2/device.js`). The device reports Tuya "data
points": a data-point number, a datatype tag and a byte payload. The driver
does three things, and the model covers each one.

- **Payload decoding** (module `TuyaPayload`, `tuya_payload.dfy`). A tag and
  some bytes become a typed value: raw bytes, a boolean, a number, a string,
  an enum byte, or `undefined`. Numbers follow JavaScript's `<<`. Each shift
  wraps the value to a signed 32-bit integer, and the byte added afterwards
  is not wrapped. The two loops of the source are methods. Each is proved
  against a recursive definition. That definition is then related to the
  unbounded big-endian value: it equals that value wrapped to 32 bits, for
  every payload length.
- **Frame dispatch with the distance debounce** (module `RadarSensor`,
  `radar_sensor.dfy`). The class `RadarSensor2` holds
  `lastDistanceUpdateTime` and the three capabilities it writes:
  `alarm_motion`, `target_distance` and `measure_luminance`. It also holds a
  log of the values sent with `writeData32`. `UpdatePosition` is proved
  against the function `Dispatch`. The debounce is stated over whole streams
  of frames in `radar_sensor_properties.dfy`.
- **Settings writes**. `OnSettings` appends to the write log the writes that
  `SettingsWrites` lists. The contract of `SettingsWrites` says which writes
  appear, scaled how, and in what order.

The current time (`new Date().getTime()`) and the
`distance_update_interval` setting (`getSetting`) are parameters of
`UpdatePosition`. The setting is an `Option<int>` of seconds; `None` stands
for a setting that was never set.

## Model

| member | source | states |
|---|---|---|
| `TuyaPayload.ToInt32` | drivers/radar_sensor_2/device.js:33 | ECMAScript ToInt32: the result is a signed 32-bit integer congruent to the input modulo 2^32 |
| `TuyaPayload.ShiftLeft8` | drivers/radar_sensor_2/device.js:33 | `value << 8`: a signed 32-bit multiple of 256, at most 2^31 - 256, congruent to `value * 256` modulo 2^32 |
| `TuyaPayload.MultiByteValue` | drivers/radar_sensor_2/device.js:29-38 | the number the shift-and-add loop computes is always a signed 32-bit integer |
| `TuyaPayload.BigEndian` | drivers/radar_sensor_2/device.js:29-38 | the reference reading of the bytes as an unbounded unsigned big-endian number, below 256^length |
| `TuyaPayload.FromCharCodes` | drivers/radar_sensor_2/device.js:48-53 | the concatenated `String.fromCharCode` string has one character per byte and its i-th character has code `data[i]` |
| `TuyaPayload.DataValueOf` | drivers/radar_sensor_2/device.js:40-59 | `getDataValue` returns `undefined` exactly for a tag outside 0..5, or for the enum tag with an empty payload |
| `TuyaPayload.ConvertMultiBytePayload` | drivers/radar_sensor_2/device.js:29-38 | the shift-and-add loop returns the recursive 32-bit wrapping value of the bytes, which is the big-endian value wrapped to a signed 32-bit integer |
| `TuyaPayload.MultiByteValueAppend` | drivers/radar_sensor_2/device.js:29-38 | the defining equations of `MultiByteValue` restated in append form, for callers: no bytes decode to 0, and appending byte `b` to bytes that decode to `v` gives `(v << 8) + b` |
| `TuyaPayload.MultiByteValueIsWrappedBigEndian` | drivers/radar_sensor_2/device.js:29-38 | for every length the decoded number is always a signed 32-bit integer and equals ToInt32 of the unbounded big-endian value |
| `TuyaPayload.ShortPayloadExact` | drivers/radar_sensor_2/device.js:29-38 | payloads of up to three bytes decode to their exact unsigned big-endian value |
| `TuyaPayload.FourBytePayloadSigned` | drivers/radar_sensor_2/device.js:29-38 | a 4-byte payload decodes to its unsigned value when the first byte is below 0x80, and to that value minus 2^32 otherwise |
| `TuyaPayload.AllOnesPayloadIsMinusOne` | drivers/radar_sensor_2/device.js:29-38 | the bytes FF FF FF FF decode to -1, not to 2^32 - 1 |
| `TuyaPayload.TopBitPayloadIsMinInt32` | drivers/radar_sensor_2/device.js:29-38 | the bytes 80 00 00 00 decode to -2^31 |
| `TuyaPayload.FifthBytePayloadShiftsOut` | drivers/radar_sensor_2/device.js:29-38 | the bytes 01 00 00 00 00 decode to 0, because the leading 1 is shifted out of the 32 bits |
| `TuyaPayload.CharCodesToString` | drivers/radar_sensor_2/device.js:48-53 | the string loop yields one character per byte, in order, each with that byte as its code |
| `TuyaPayload.GetDataValue` | drivers/radar_sensor_2/device.js:40-59 | the tag switch returns the value `DataValueOf` assigns to the tag and payload, calling the two loops for value, bitmap and string |
| `TuyaPayload.RawDecoding` | drivers/radar_sensor_2/device.js:42-43 | the raw tag returns the payload unchanged |
| `TuyaPayload.BoolDecoding` | drivers/radar_sensor_2/device.js:44-45 | the bool tag gives a boolean that is true exactly when the first byte is 1; an empty payload gives false |
| `TuyaPayload.StringDecoding` | drivers/radar_sensor_2/device.js:48-53 | the string tag gives a string as long as the payload whose i-th character has code `data[i]` |
| `TuyaPayload.EnumDecoding` | drivers/radar_sensor_2/device.js:54-55 | the enum tag gives the first byte, a number in 0..255, and `undefined` for an empty payload |
| `TuyaPayload.ValueAndBitmapAgree` | drivers/radar_sensor_2/device.js:46-57 | the value and bitmap tags decode identically, to the big-endian value wrapped to 32 bits |
| `RadarSensor.Truthy` | drivers/radar_sensor_2/device.js:93 | `Boolean(value)` is false exactly for `false`, `0`, `""` and `undefined`; a byte buffer, even an empty one, is true |
| `RadarSensor.DistanceUpdateInterval` | drivers/radar_sensor_2/device.js:88 | `getSetting(...) ?? 10`: a present setting is used as it is, and only an absent one becomes 10 |
| `RadarSensor.Dispatch` | drivers/radar_sensor_2/device.js:85-121 | each capability changes only on its own data point, and the timestamp stays or, on data point 109 only, becomes the frame's time |
| `RadarSensor.WriteIfChanged` | drivers/radar_sensor_2/device.js:131-149 | one `if (changedKeys.includes(key))` yields at most one write, exactly when the key changed, of the new value times the scale |
| `RadarSensor.SettingsWrites` | drivers/radar_sensor_2/device.js:130-150 | a write is listed exactly for each changed key among the five settings, both ranges multiplied by 100 and the others as given, in the order 106, 108, 107, 111, 110, so no data point is written twice |
| `RadarSensor.RadarSensor2.constructor` | drivers/radar_sensor_2/device.js:62-65 | a new device has timestamp 0, no capability set yet and an empty write log |
| `RadarSensor.RadarSensor2.UpdatePosition` | drivers/radar_sensor_2/device.js:85-121 | the new state is `Dispatch` of the old state and the frame's decoded value; nothing is written to the device |
| `RadarSensor.RadarSensor2.OnIlluminanceMeasuredAttributeReport` | drivers/radar_sensor_2/device.js:152-155 | `measure_luminance` becomes the measured value and every other field is unchanged |
| `RadarSensor.RadarSensor2.WriteData32` | drivers/radar_sensor_2/device.js:132 | one write of a value to a data point is appended to the log; the capabilities are unchanged |
| `RadarSensor.RadarSensor2.WriteIfSettingChanged` | drivers/radar_sensor_2/device.js:135-137 | one write of the scaled new value is logged when the key changed, none otherwise |
| `RadarSensor.RadarSensor2.OnSettings` | drivers/radar_sensor_2/device.js:130-150 | the log grows by exactly `SettingsWrites` of the new settings and changed keys; the capabilities are unchanged |
| `RadarSensorProperties.PresenceSetsAlarmMotion` | drivers/radar_sensor_2/device.js:91-94 | data point 105 sets `alarm_motion` to `Boolean(value)` and changes nothing else |
| `RadarSensorProperties.IlluminanceSetsLuminance` | drivers/radar_sensor_2/device.js:98-101 | data point 104 sets `measure_luminance` to the decoded value and changes nothing else |
| `RadarSensorProperties.OtherDataPointsChangeNothing` | drivers/radar_sensor_2/device.js:95-119 | data point 106 and every unknown data point leave the state unchanged |
| `RadarSensorProperties.DistanceDebounce` | drivers/radar_sensor_2/device.js:102-117 | with the interval defaulting to 10 s, a 109 frame at least `interval*1000` ms after the last applied one sets the distance and moves the timestamp to now, and any other 109 frame changes nothing |
| `RadarSensorProperties.OnlyDistanceMovesClock` | drivers/radar_sensor_2/device.js:90-120 | only data point 109 changes `lastDistanceUpdateTime`, and only to the frame's time |
| `RadarSensorProperties.StepClock` | drivers/radar_sensor_2/device.js:104-107 | after a frame the timestamp is the frame's time when the debounce let a distance frame through, and unchanged otherwise |
| `RadarSensorProperties.ClockBehindEvent` | drivers/radar_sensor_2/device.js:104-107 | on a clock that does not run backwards, the timestamp is never later than the frame being handled |
| `RadarSensorProperties.ClockNeverDecreases` | drivers/radar_sensor_2/device.js:104-107 | on a clock that does not run backwards, `lastDistanceUpdateTime` never decreases from one frame to the next |
| `RadarSensorProperties.ClockMonotone` | drivers/radar_sensor_2/device.js:104-107 | on such a clock the timestamp is monotone between any two points of a stream of frames |
| `RadarSensorProperties.AppliedUpdatesSpaced` | drivers/radar_sensor_2/device.js:104-107 | on such a clock any two applied distance updates are at least the later one's `interval*1000` ms apart |
| `RadarSensorProperties.ClockHeldSince` | drivers/radar_sensor_2/device.js:104-107 | between two applied distance updates the timestamp stays at the earlier one's time |
| `RadarSensorProperties.ConsecutiveAppliedUpdatesSpaced` | drivers/radar_sensor_2/device.js:104-107 | whatever the clock does, two consecutive applied distance updates are at least the later one's `interval*1000` ms apart |
| `RadarSensorProperties.ClockZeroUntilFirstApplied` | drivers/radar_sensor_2/device.js:64-107 | from the initial timestamp 0, until the first applied distance update the timestamp stays 0 and the distance unset, and a distance frame with no applied one before it is applied, and sets the distance, exactly when its time is at least `interval*1000` |
| `RadarSensorProperties.States` | drivers/radar_sensor_2/device.js:68-71 | a stream of response events is handled one after another: each state is the previous one after one frame |

## Left out

- Listener wiring in `onNodeInit` and its removal in `onDeleted`: host event plumbing. `States` stands for "each response event is handled in turn".
- Registering and firing the `target_distance_changed` flow trigger, and its `.catch(this.error)`: asynchronous host SDK calls with no effect on the modelled state.
- Logging: it has no effect on the modelled state.
- `onIASZoneStatusChangeNotification`: it only copies a field of a host-supplied struct into `alarm_motion`.
- The internals of `writeData32`, `getSetting` and `setCapabilityValue`, and the zigbee-clusters and Tuya cluster libraries, are not part of this model. A write becomes an entry in a log, and a capability becomes a field.
- `RadarSensor.RadarSensor2.UpdatePosition`: the `target_distance` capability receives `value / 100`, a floating-point division. The model stores the decoded value itself, so it does not capture the division or its rounding.
- `RadarSensor.RadarSensor2.OnSettings`: settings values are real numbers, so the model does not capture floating-point rounding of `value * 100`. It requires that every changed key has a value in `newSettings`, as the host passes the full settings object.
- `RadarSensor.RadarSensor2.UpdatePosition`: the interval setting is modelled as whole seconds. A fractional interval is not captured.
- Clock: the current time is a parameter in milliseconds, not read from a clock.
