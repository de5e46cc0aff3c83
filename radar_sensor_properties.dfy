/**
 * Properties of the radar sensor's frame handling and settings writes: what
 * one frame does to the device, what the distance debounce guarantees over a
 * whole stream of frames, and which writes a settings change produces.
 */
module RadarSensorProperties {
  import opened Wrappers
  import opened TuyaPayload
  import opened RadarSensor

  // ---------------------------------------------------------------------------
  // One frame

  /** The presence data point sets `alarm_motion` to the truthiness of the decoded value, and nothing else. */
  lemma PresenceSetsAlarmMotion(d: Device, tag: int, data: seq<byte>, now: int, intervalSetting: Option<int>)
    ensures Dispatch(d, PresenceState, tag, data, now, intervalSetting)
         == d.(alarmMotion := Some(Truthy(DataValueOf(tag, data))))
  {
  }

  /** The illuminance data point sets `measure_luminance` to the decoded value, and nothing else. */
  lemma IlluminanceSetsLuminance(d: Device, tag: int, data: seq<byte>, now: int, intervalSetting: Option<int>)
    ensures Dispatch(d, IlluminanceLux, tag, data, now, intervalSetting)
         == d.(luminance := Some(DataValueOf(tag, data)))
  {
  }

  /** The sensitivity data point and every unknown one leave the device as it was. */
  lemma OtherDataPointsChangeNothing(d: Device, dp: int, tag: int, data: seq<byte>, now: int, intervalSetting: Option<int>)
    requires dp != PresenceState && dp != IlluminanceLux && dp != TargetDistance
    ensures Dispatch(d, dp, tag, data, now, intervalSetting) == d
  {
  }

  /**
   * A distance frame is applied (distance set, timestamp moved to `now`) when
   * at least the interval (10 s when the setting is absent) has passed since
   * the last applied one, and is otherwise dropped without any change.
   */
  lemma DistanceDebounce(d: Device, tag: int, data: seq<byte>, now: int, intervalSetting: Option<int>)
    ensures intervalSetting.None? ==> DistanceUpdateInterval(intervalSetting) == 10
    ensures now - d.lastDistanceUpdateTime >= DistanceUpdateInterval(intervalSetting) * 1000 ==>
      Dispatch(d, TargetDistance, tag, data, now, intervalSetting)
        == d.(targetDistance := Some(DataValueOf(tag, data)), lastDistanceUpdateTime := now)
    ensures now - d.lastDistanceUpdateTime < DistanceUpdateInterval(intervalSetting) * 1000 ==>
      Dispatch(d, TargetDistance, tag, data, now, intervalSetting) == d
  {
  }

  /** Only the distance data point moves the timestamp, and only to the frame's time. */
  lemma OnlyDistanceMovesClock(d: Device, dp: int, tag: int, data: seq<byte>, now: int, intervalSetting: Option<int>)
    ensures Dispatch(d, dp, tag, data, now, intervalSetting).lastDistanceUpdateTime != d.lastDistanceUpdateTime
      ==> dp == TargetDistance && Dispatch(d, dp, tag, data, now, intervalSetting).lastDistanceUpdateTime == now
  {
  }

  // ---------------------------------------------------------------------------
  // A stream of frames

  /** One `response` event: a frame, the time it is handled, and the interval setting at that time. */
  datatype Event = Event(dp: int, tag: int, data: seq<byte>, now: int, intervalSetting: Option<int>)

  function Step(d: Device, e: Event): Device {
    Dispatch(d, e.dp, e.tag, e.data, e.now, e.intervalSetting)
  }

  /** The device before each event and after the last one. */
  function States(d: Device, events: seq<Event>): (r: seq<Device>)
    ensures |r| == |events| + 1 && r[0] == d
    ensures forall i :: 0 <= i < |events| ==> r[i + 1] == Step(r[i], events[i])
    decreases |events|
  {
    if events == [] then [d] else [d] + States(Step(d, events[0]), events[1..])
  }

  /** Event `e`, met in state `d`, is a distance frame that the debounce lets through. */
  predicate DistanceApplied(d: Device, e: Event) {
    e.dp == TargetDistance
    && e.now - d.lastDistanceUpdateTime >= DistanceUpdateInterval(e.intervalSetting) * 1000
  }

  /** The clock does not run backwards over the stream. */
  predicate TimesNonDecreasing(events: seq<Event>) {
    forall i, j :: 0 <= i <= j < |events| ==> events[i].now <= events[j].now
  }

  /** The stream does not start before the device's last applied distance update. */
  predicate StartsAfter(d: Device, events: seq<Event>) {
    |events| > 0 ==> d.lastDistanceUpdateTime <= events[0].now
  }

  /** The timestamp after an event is that event's time if it was an applied distance frame, else unchanged. */
  lemma StepClock(d: Device, e: Event)
    ensures Step(d, e).lastDistanceUpdateTime == if DistanceApplied(d, e) then e.now else d.lastDistanceUpdateTime
  {
  }

  /** On a forward-running clock, the timestamp is never ahead of the event being handled. */
  lemma {:induction false} ClockBehindEvent(d: Device, events: seq<Event>, k: nat)
    requires TimesNonDecreasing(events) && StartsAfter(d, events)
    requires k < |events|
    ensures States(d, events)[k].lastDistanceUpdateTime <= events[k].now
  {
    if k > 0 {
      ClockBehindEvent(d, events, k - 1);
      StepClock(States(d, events)[k - 1], events[k - 1]);
    }
  }

  /** On a forward-running clock, `lastDistanceUpdateTime` never decreases from one event to the next. */
  lemma ClockNeverDecreases(d: Device, events: seq<Event>)
    requires TimesNonDecreasing(events) && StartsAfter(d, events)
    ensures forall i :: 0 <= i < |events| ==>
      States(d, events)[i].lastDistanceUpdateTime <= States(d, events)[i + 1].lastDistanceUpdateTime
  {
    forall i | 0 <= i < |events|
      ensures States(d, events)[i].lastDistanceUpdateTime <= States(d, events)[i + 1].lastDistanceUpdateTime
    {
      ClockBehindEvent(d, events, i);
      StepClock(States(d, events)[i], events[i]);
    }
  }

  /** On a forward-running clock, the timestamp is monotone between any two points of the stream. */
  lemma {:induction false} ClockMonotone(d: Device, events: seq<Event>, i: nat, j: nat)
    requires TimesNonDecreasing(events) && StartsAfter(d, events)
    requires i <= j <= |events|
    ensures States(d, events)[i].lastDistanceUpdateTime <= States(d, events)[j].lastDistanceUpdateTime
    decreases j - i
  {
    if i < j {
      ClockMonotone(d, events, i, j - 1);
      ClockNeverDecreases(d, events);
    }
  }

  /**
   * On a forward-running clock, any two applied distance updates are at least
   * the later one's interval apart.
   */
  lemma AppliedUpdatesSpaced(d: Device, events: seq<Event>, i: nat, j: nat)
    requires TimesNonDecreasing(events) && StartsAfter(d, events)
    requires i < j < |events|
    requires DistanceApplied(States(d, events)[i], events[i])
    requires DistanceApplied(States(d, events)[j], events[j])
    ensures events[j].now - events[i].now >= DistanceUpdateInterval(events[j].intervalSetting) * 1000
  {
    StepClock(States(d, events)[i], events[i]);
    ClockMonotone(d, events, i + 1, j);
  }

  /** Between two applied distance updates, the timestamp stays at the earlier one's time. */
  lemma {:induction false} ClockHeldSince(d: Device, events: seq<Event>, i: nat, k: nat)
    requires i < k < |events| + 1
    requires DistanceApplied(States(d, events)[i], events[i])
    requires forall m :: i < m < k ==> !DistanceApplied(States(d, events)[m], events[m])
    ensures States(d, events)[k].lastDistanceUpdateTime == events[i].now
    decreases k
  {
    if k == i + 1 {
      StepClock(States(d, events)[i], events[i]);
    } else {
      ClockHeldSince(d, events, i, k - 1);
      StepClock(States(d, events)[k - 1], events[k - 1]);
    }
  }

  /**
   * Whatever the clock does, two consecutive applied distance updates are at
   * least the later one's interval apart.
   */
  lemma ConsecutiveAppliedUpdatesSpaced(d: Device, events: seq<Event>, i: nat, j: nat)
    requires i < j < |events|
    requires DistanceApplied(States(d, events)[i], events[i])
    requires DistanceApplied(States(d, events)[j], events[j])
    requires forall m :: i < m < j ==> !DistanceApplied(States(d, events)[m], events[m])
    ensures events[j].now - events[i].now >= DistanceUpdateInterval(events[j].intervalSetting) * 1000
  {
    ClockHeldSince(d, events, i, j);
  }

  /**
   * On a new device (timestamp 0, line 64), until the first applied distance
   * update the timestamp stays 0 and the target distance stays unset, whatever
   * other frames arrive. So the first distance frame the debounce can let
   * through, after any number of presence, illuminance or dropped distance
   * frames, is applied exactly when its time is at least the interval, and
   * only then sets the target distance.
   */
  lemma {:induction false} ClockZeroUntilFirstApplied(events: seq<Event>, k: nat)
    requires k <= |events|
    requires forall m :: 0 <= m < k ==> !DistanceApplied(States(Initial, events)[m], events[m])
    ensures States(Initial, events)[k].lastDistanceUpdateTime == 0
    ensures States(Initial, events)[k].targetDistance == None
    ensures k < |events| && events[k].dp == TargetDistance ==>
      (DistanceApplied(States(Initial, events)[k], events[k])
       <==> events[k].now >= DistanceUpdateInterval(events[k].intervalSetting) * 1000)
    ensures k < |events| && events[k].dp == TargetDistance ==>
      (States(Initial, events)[k + 1].targetDistance.Some?
       <==> events[k].now >= DistanceUpdateInterval(events[k].intervalSetting) * 1000)
  {
    if k > 0 {
      ClockZeroUntilFirstApplied(events, k - 1);
      StepClock(States(Initial, events)[k - 1], events[k - 1]);
    }
  }
}
