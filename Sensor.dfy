/** A sensor: a fixed type and unit, and the slot holding its most recent
    reading, which each ingest overwrites. */
module Sensors {
  import opened Common
  import opened Text
  import opened Readings

  class Sensor {
    const id: Id
    const sensorType: string
    const unit: string
    var lastSeen: Option<Time>
    var lastReading: Option<Reading>

    /** The field assignments of the constructor, once its argument check passed. */
    constructor Init(id: Id, sensorType: string, unit: string)
      ensures this.id == id && this.sensorType == sensorType && this.unit == unit
      ensures lastSeen == None && lastReading == None
    {
      this.id := id;
      this.sensorType := sensorType;
      this.unit := unit;
      lastSeen := None;
      lastReading := None;
    }

    /** `new Sensor(type, unit)`: the type is required and stored trimmed; a
        missing unit becomes the empty string. A fresh sensor has no reading. */
    static method Create(id: Id, sensorType: Option<string>, unit: Option<string>) returns (r: Result<Sensor>)
      ensures r.Err? <==> Missing(sensorType)
      ensures r.Err? ==> r.error == SensorTypeRequired
      ensures r.Ok? ==> fresh(r.value) && r.value.id == id
      ensures r.Ok? ==> r.value.sensorType == Trim(sensorType.value) && (r.value.sensorType == "" <==> TrimsAway(sensorType.value))
      ensures r.Ok? ==> r.value.unit == TrimmedOrEmpty(unit)
      ensures r.Ok? ==> r.value.lastSeen == None && r.value.lastReading == None
    {
      if Missing(sensorType) {
        return Err(SensorTypeRequired);
      }
      var s := new Sensor.Init(id, Trim(sensorType.value), TrimmedOrEmpty(unit));
      return Ok(s);
    }

    /** `touch`: records when the sensor was last seen; the reading slot stays. */
    method Touch(time: Time)
      modifies this`lastSeen
      ensures lastSeen == Some(time)
      ensures lastReading == old(lastReading)
    {
      lastSeen := Some(time);
    }

    /** `setLastReading`: replaces the reading slot and takes its timestamp as last seen. */
    method SetLastReading(r: Reading)
      modifies this`lastSeen, this`lastReading
      ensures lastReading == Some(r)
      ensures lastSeen == Some(r.timestamp)
    {
      lastReading := Some(r);
      lastSeen := Some(r.timestamp);
    }
  }
}
