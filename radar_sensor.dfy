/**
 * The radar sensor device (class `radarSensor2`,
 * drivers/radar_sensor_2/device.js:61-162): routing of decoded data points to
 * the capabilities it sets, the debounce of the target distance, and the
 * data points written back when the user changes a setting.
 *
 * The host's clock and its settings store are not read here: the current
 * time and the `distance_update_interval` setting are parameters.
 */
module RadarSensor {
  import opened Wrappers
  import opened TuyaPayload

  // The data points of this device (the `dataPoints` table).
  const PresenceState: int := 105
  const Sensitivity: int := 106
  const MinimumRange: int := 108
  const MaximumRange: int := 107
  const TargetDistance: int := 109
  const DetectionDelay: int := 111
  const FadingTime: int := 110
  const IlluminanceLux: int := 104

  /** Seconds between two applied distance updates when the setting is absent. */
  const DefaultDistanceUpdateInterval: int := 10

  /**
   * The state `updatePosition` reads and writes: the time (in milliseconds)
   * of the last applied distance update and the three capabilities, each
   * `None` until first set. `targetDistance` holds the decoded value; the
   * capability shows it divided by 100.
   */
  datatype Device = Device(
    lastDistanceUpdateTime: int,
    alarmMotion: Option<bool>,
    targetDistance: Option<DataValue>,
    luminance: Option<DataValue>)

  /** A freshly constructed device: the timestamp starts at 0. */
  const Initial: Device := Device(0, None, None, None)

  /**
   * JavaScript's `Boolean(value)` on a decoded value: false exactly for the
   * falsy values `false`, `0`, `""` and `undefined`. A buffer, even an empty
   * one, is an object and therefore true.
   */
  function Truthy(v: DataValue): (r: bool)
    ensures !r <==> v == Boolean(false) || v == Number(0) || v == Text("") || v == Undefined
  {
    match v
    case Bytes(_) => true
    case Boolean(b) => b
    case Number(n) => n != 0
    case Text(s) => s != ""
    case Undefined => false
  }

  /**
   * `this.getSetting('distance_update_interval') ?? 10`: a present setting is
   * used as it is, even 0 or a negative number; only an absent one becomes 10.
   */
  function DistanceUpdateInterval(setting: Option<int>): (r: int)
    ensures setting.Some? ==> r == setting.value
    ensures setting.None? ==> r == 10
  {
    setting.GetOr(DefaultDistanceUpdateInterval)
  }

  /**
   * The device after `updatePosition` has handled one frame at time `now`.
   * Each capability is touched only by its own data point, and only the
   * distance data point moves the timestamp, to `now`.
   */
  function Dispatch(d: Device, dp: int, tag: int, data: seq<byte>, now: int, intervalSetting: Option<int>): (r: Device)
    ensures dp != PresenceState ==> r.alarmMotion == d.alarmMotion
    ensures dp != IlluminanceLux ==> r.luminance == d.luminance
    ensures dp != TargetDistance ==> r.targetDistance == d.targetDistance
    ensures r.lastDistanceUpdateTime == d.lastDistanceUpdateTime || (dp == TargetDistance && r.lastDistanceUpdateTime == now)
  {
    var value := DataValueOf(tag, data);
    if dp == PresenceState then
      d.(alarmMotion := Some(Truthy(value)))
    else if dp == IlluminanceLux then
      d.(luminance := Some(value))
    else if dp == TargetDistance then
      if now - d.lastDistanceUpdateTime >= DistanceUpdateInterval(intervalSetting) * 1000 then
        d.(targetDistance := Some(value), lastDistanceUpdateTime := now)
      else
        d
    else
      // the sensitivity data point and unknown ones are only logged
      d
  }

  // ---------------------------------------------------------------------------
  // Settings

  /** One call of `writeData32`: a data point and the value sent to it. */
  datatype Write = Write(dp: int, value: real)

  const RadarSensitivityKey: string := "radar_sensitivity"
  const MinimumRangeKey: string := "minimum_range"
  const MaximumRangeKey: string := "maximum_range"
  const DetectionDelayKey: string := "detection_delay"
  const FadingTimeKey: string := "fading_time"

  /** The factor by which a range setting is scaled before it is written. */
  const RangeScale: real := 100.0

  /** Every key the host reports as changed comes with its new value. */
  predicate SettingsComplete(newSettings: map<string, real>, changedKeys: seq<string>) {
    forall k :: k in changedKeys ==> k in newSettings
  }

  /** The write for one setting, or none when that setting did not change. */
  function WriteIfChanged(newSettings: map<string, real>, changedKeys: seq<string>, key: string, dp: int, scale: real): (r: seq<Write>)
    requires SettingsComplete(newSettings, changedKeys)
    ensures |r| <= 1
    ensures |r| == 1 <==> key in changedKeys
    ensures |r| == 1 ==> r[0] == Write(dp, newSettings[key] * scale)
  {
    if key in changedKeys then [Write(dp, newSettings[key] * scale)] else []
  }

  /** The position of a written data point in the fixed order of `onSettings`. */
  function WriteOrder(dp: int): int {
    if dp == Sensitivity then 0
    else if dp == MinimumRange then 1
    else if dp == MaximumRange then 2
    else if dp == DetectionDelay then 3
    else 4
  }

  /**
   * `w` is the write that belongs to a changed setting: sensitivity, detection
   * delay and fading time as given, both ranges times 100.
   */
  predicate ExpectedWrite(newSettings: map<string, real>, changedKeys: seq<string>, w: Write)
    requires SettingsComplete(newSettings, changedKeys)
  {
    || (w.dp == Sensitivity && RadarSensitivityKey in changedKeys && w.value == newSettings[RadarSensitivityKey])
    || (w.dp == MinimumRange && MinimumRangeKey in changedKeys && w.value == newSettings[MinimumRangeKey] * 100.0)
    || (w.dp == MaximumRange && MaximumRangeKey in changedKeys && w.value == newSettings[MaximumRangeKey] * 100.0)
    || (w.dp == DetectionDelay && DetectionDelayKey in changedKeys && w.value == newSettings[DetectionDelayKey])
    || (w.dp == FadingTime && FadingTimeKey in changedKeys && w.value == newSettings[FadingTimeKey])
  }

  /**
   * The writes `onSettings` issues: exactly one for each changed setting and
   * none for the others, in the fixed order sensitivity, minimum range,
   * maximum range, detection delay, fading time, so that no data point is
   * written twice.
   */
  function SettingsWrites(newSettings: map<string, real>, changedKeys: seq<string>): (r: seq<Write>)
    requires SettingsComplete(newSettings, changedKeys)
    ensures forall w :: w in r <==> ExpectedWrite(newSettings, changedKeys, w)
    ensures forall i, j :: 0 <= i < j < |r| ==> WriteOrder(r[i].dp) < WriteOrder(r[j].dp)
  {
    WriteIfChanged(newSettings, changedKeys, RadarSensitivityKey, Sensitivity, 1.0)
    + WriteIfChanged(newSettings, changedKeys, MinimumRangeKey, MinimumRange, RangeScale)
    + WriteIfChanged(newSettings, changedKeys, MaximumRangeKey, MaximumRange, RangeScale)
    + WriteIfChanged(newSettings, changedKeys, DetectionDelayKey, DetectionDelay, 1.0)
    + WriteIfChanged(newSettings, changedKeys, FadingTimeKey, FadingTime, 1.0)
  }

  // ---------------------------------------------------------------------------
  // The device object

  class RadarSensor2 {
    var lastDistanceUpdateTime: int
    var alarmMotion: Option<bool>
    var targetDistance: Option<DataValue>
    var luminance: Option<DataValue>
    /** Every `writeData32` call made so far, oldest first. */
    var writes: seq<Write>

    /** The state `updatePosition` works on. */
    function State(): Device
      reads this
    {
      Device(lastDistanceUpdateTime, alarmMotion, targetDistance, luminance)
    }

    constructor ()
      ensures State() == Initial
      ensures writes == []
    {
      lastDistanceUpdateTime := 0;
      alarmMotion := None;
      targetDistance := None;
      luminance := None;
      writes := [];
    }

    /** `updatePosition`: decode one frame and apply it to the capabilities. */
    method UpdatePosition(dp: int, tag: int, data: seq<byte>, now: int, intervalSetting: Option<int>)
      modifies this
      ensures State() == Dispatch(old(State()), dp, tag, data, now, intervalSetting)
      ensures writes == old(writes)
    {
      var value := GetDataValue(tag, data);
      var distanceUpdateInterval := intervalSetting.GetOr(DefaultDistanceUpdateInterval);
      if dp == PresenceState {
        alarmMotion := Some(Truthy(value));
      } else if dp == IlluminanceLux {
        OnIlluminanceMeasuredAttributeReport(value);
      } else if dp == TargetDistance {
        if now - lastDistanceUpdateTime >= distanceUpdateInterval * 1000 {
          targetDistance := Some(value);
          lastDistanceUpdateTime := now;
        }
      }
    }

    /** `onIlluminanceMeasuredAttributeReport`: store the measured illuminance. */
    method OnIlluminanceMeasuredAttributeReport(measuredValue: DataValue)
      modifies this
      ensures luminance == Some(measuredValue)
      ensures lastDistanceUpdateTime == old(lastDistanceUpdateTime)
      ensures alarmMotion == old(alarmMotion) && targetDistance == old(targetDistance)
      ensures writes == old(writes)
    {
      luminance := Some(measuredValue);
    }

    /** `writeData32`: send one value to a data point. */
    method WriteData32(dp: int, value: real)
      modifies this
      ensures writes == old(writes) + [Write(dp, value)]
      ensures State() == old(State())
    {
      writes := writes + [Write(dp, value)];
    }

    /** One `if (changedKeys.includes(key)) this.writeData32(dp, value * scale)` of `onSettings`. */
    method WriteIfSettingChanged(newSettings: map<string, real>, changedKeys: seq<string>, key: string, dp: int, scale: real)
      requires SettingsComplete(newSettings, changedKeys)
      modifies this
      ensures writes == old(writes) + WriteIfChanged(newSettings, changedKeys, key, dp, scale)
      ensures State() == old(State())
    {
      if key in changedKeys {
        WriteData32(dp, newSettings[key] * scale);
      }
    }

    /** `onSettings`: write every changed setting to its data point. */
    method OnSettings(newSettings: map<string, real>, changedKeys: seq<string>)
      requires SettingsComplete(newSettings, changedKeys)
      modifies this
      ensures writes == old(writes) + SettingsWrites(newSettings, changedKeys)
      ensures State() == old(State())
    {
      WriteIfSettingChanged(newSettings, changedKeys, RadarSensitivityKey, Sensitivity, 1.0);
      WriteIfSettingChanged(newSettings, changedKeys, MinimumRangeKey, MinimumRange, RangeScale);
      WriteIfSettingChanged(newSettings, changedKeys, MaximumRangeKey, MaximumRange, RangeScale);
      WriteIfSettingChanged(newSettings, changedKeys, DetectionDelayKey, DetectionDelay, 1.0);
      WriteIfSettingChanged(newSettings, changedKeys, FadingTimeKey, FadingTime, 1.0);
    }
  }
}
