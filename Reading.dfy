/** A reading: one timestamped value of one sensor of one device. All its
    fields are final, so it is a value. */
module Readings {
  import opened Common
  import opened Text

  datatype Reading = Reading(id: Id, deviceId: Id, sensorId: Id, timestamp: Time, value: real)

  /** The constructor: both ids must be present and non-blank, the timestamp
      present; the checks run in this order. */
  function NewReading(id: Id, deviceId: Option<Id>, sensorId: Option<Id>, timestamp: Option<Time>, value: real): (r: Result<Reading>)
    ensures r.Ok? <==> !Missing(deviceId) && !Missing(sensorId) && timestamp.Some?
    ensures Missing(deviceId) ==> r == Err(DeviceIdRequired)
    ensures !Missing(deviceId) && Missing(sensorId) ==> r == Err(SensorIdRequired)
    ensures !Missing(deviceId) && !Missing(sensorId) && timestamp.None? ==> r == Err(TimestampRequired)
    ensures r.Ok? ==> && r.value.id == id && r.value.deviceId == deviceId.value
                      && r.value.sensorId == sensorId.value
                      && r.value.timestamp == timestamp.value && r.value.value == value
  {
    if Missing(deviceId) then Err(DeviceIdRequired)
    else if Missing(sensorId) then Err(SensorIdRequired)
    else if timestamp.None? then Err(TimestampRequired)
    else Ok(Reading(id, deviceId.value, sensorId.value, timestamp.value, value))
  }
}
