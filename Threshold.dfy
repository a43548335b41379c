/** A threshold: optional lower and upper bounds on the readings of one
    sensor type on one device, with the severity of the alerts it raises.
    Its fields are final, so it is a value. */
module Thresholds {
  import opened Common
  import opened Text

  datatype Threshold = Threshold(
    id: Id,
    deviceId: Id,
    sensorType: string,
    minValue: Option<real>,
    maxValue: Option<real>,
    severity: Severity)

  /** What construction guarantees: both keys present, the bounds not inverted. */
  ghost predicate WellFormed(t: Threshold)
  {
    && !IsBlank(t.deviceId)
    && !IsBlank(t.sensorType)
    && (t.minValue.Some? && t.maxValue.Some? ==> t.minValue.value <= t.maxValue.value)
  }

  /** The constructor: validates its arguments in order and defaults the severity. */
  function NewThreshold(
    id: Id, deviceId: Option<Id>, sensorType: Option<string>,
    minValue: Option<real>, maxValue: Option<real>, severity: Option<Severity>): (r: Result<Threshold>)
    ensures r.Err? <==>
      Missing(deviceId) || Missing(sensorType) ||
      (minValue.Some? && maxValue.Some? && minValue.value > maxValue.value)
    ensures Missing(deviceId) ==> r == Err(DeviceIdRequired)
    ensures !Missing(deviceId) && Missing(sensorType) ==> r == Err(SensorTypeRequired)
    ensures !Missing(deviceId) && !Missing(sensorType) && r.Err? ==> r == Err(MinAboveMax)
    ensures r.Ok? ==> WellFormed(r.value)
    ensures r.Ok? ==>
              && r.value.id == id && r.value.deviceId == deviceId.value
              && r.value.sensorType == sensorType.value
              && r.value.minValue == minValue && r.value.maxValue == maxValue
    ensures r.Ok? && severity.None? ==> r.value.severity == Medium
    ensures r.Ok? && severity.Some? ==> r.value.severity == severity.value
  {
    if Missing(deviceId) then Err(DeviceIdRequired)
    else if Missing(sensorType) then Err(SensorTypeRequired)
    else if minValue.Some? && maxValue.Some? && minValue.value > maxValue.value then Err(MinAboveMax)
    else Ok(Threshold(id, deviceId.value, sensorType.value, minValue, maxValue, SeverityOrMedium(severity)))
  }

  /** Reference reading of the bounds: v lies in the closed band they
      describe, an absent bound constraining nothing. */
  predicate WithinBounds(t: Threshold, v: real)
  {
    && (t.minValue.None? || t.minValue.value <= v)
    && (t.maxValue.None? || v <= t.maxValue.value)
  }

  /** `isBreached`: the lower bound is tested first, then the upper one.
      A breach is exactly a value outside the closed band. */
  function IsBreached(t: Threshold, v: real): (breached: bool)
    ensures breached <==> !WithinBounds(t, v)
    ensures breached <==>
              || (t.minValue.Some? && v < t.minValue.value)
              || (t.maxValue.Some? && v > t.maxValue.value)
  {
    if t.minValue.Some? && v < t.minValue.value then true
    else if t.maxValue.Some? && v > t.maxValue.value then true
    else false
  }

  /** A value exactly on a bound of a well-formed threshold never breaches. */
  lemma BoundValueNeverBreaches(t: Threshold, v: real)
    requires WellFormed(t)
    requires (t.minValue.Some? && v == t.minValue.value) || (t.maxValue.Some? && v == t.maxValue.value)
    ensures !IsBreached(t, v)
  {
  }

  /** A threshold without bounds never fires. */
  lemma UnboundedNeverBreaches(t: Threshold, v: real)
    requires t.minValue.None? && t.maxValue.None?
    ensures !IsBreached(t, v)
  {
  }

  /** With only a maximum M: M itself is safe and everything above M breaches. */
  lemma MaximumOnly(t: Threshold, eps: real)
    requires t.minValue.None? && t.maxValue.Some?
    ensures !IsBreached(t, t.maxValue.value)
    ensures eps > 0.0 ==> IsBreached(t, t.maxValue.value + eps)
  {
  }

  /** With only a minimum N: N itself is safe and everything below N breaches. */
  lemma MinimumOnly(t: Threshold, eps: real)
    requires t.minValue.Some? && t.maxValue.None?
    ensures !IsBreached(t, t.minValue.value)
    ensures eps > 0.0 ==> IsBreached(t, t.minValue.value - eps)
  {
  }

  /** Because construction rejects inverted bounds, no threshold can fire on
      every value: some reading is always safe. */
  lemma SomeValueIsSafe(t: Threshold)
    requires WellFormed(t)
    ensures exists v :: !IsBreached(t, v)
  {
    var v := if t.minValue.Some? then t.minValue.value
             else if t.maxValue.Some? then t.maxValue.value
             else 0.0;
    assert !IsBreached(t, v);
  }

  /** The inverted bounds that construction rejects would make every value a
      breach: this is what the min-max check protects against. */
  lemma InvertedBoundsAlwaysBreach(t: Threshold, v: real)
    requires t.minValue.Some? && t.maxValue.Some? && t.minValue.value > t.maxValue.value
    ensures IsBreached(t, v)
  {
  }
}
