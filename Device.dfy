/** A device: a name, a location and its sensors, kept in a map keyed by
    sensor id that remembers insertion order. */
module Devices {
  import opened Common
  import opened Text
  import opened Sensors

  /** The position of the first sensor with id `sid`, if any. */
  function IndexOf(ss: seq<Sensor>, sid: Id): (k: Option<nat>)
    ensures k.Some? ==> k.value < |ss| && ss[k.value].id == sid
    ensures k.Some? ==> forall i | 0 <= i < k.value :: ss[i].id != sid
    ensures k.None? ==> forall i | 0 <= i < |ss| :: ss[i].id != sid
  {
    if ss == [] then None
    else if ss[0].id == sid then Some(0)
    else
      var k := IndexOf(ss[1..], sid);
      if k.None? then None else Some(k.value + 1)
  }

  /** The map's view of a sequence of sensors: no id occurs twice. */
  ghost predicate DistinctIds(ss: seq<Sensor>)
  {
    forall i, j | 0 <= i < j < |ss| :: ss[i].id != ss[j].id
  }

  /** `sensors.put(s.getId(), s)` on an insertion-ordered map: an existing
      key keeps its position and takes the new value, a new key goes last. */
  function Put(ss: seq<Sensor>, s: Sensor): (r: seq<Sensor>)
    requires DistinctIds(ss)
    ensures DistinctIds(r)
    ensures s in r
    ensures IndexOf(ss, s.id).Some? ==> |r| == |ss|
    ensures IndexOf(ss, s.id).None? ==> |r| == |ss| + 1 && r[..|ss|] == ss && r[|ss|] == s
    ensures forall i | 0 <= i < |ss| && ss[i].id != s.id :: r[i] == ss[i]
    ensures forall i | 0 <= i < |ss| && ss[i].id == s.id :: r[i] == s
  {
    var k := IndexOf(ss, s.id);
    if k.Some? then
      var r := ss[k.value := s];
      assert r[k.value] == s;
      r
    else
      var r := ss + [s];
      assert r[|ss|] == s;
      r
  }

  class Device {
    const id: Id
    var name: string
    var location: string
    var sensors: seq<Sensor>

    ghost predicate Valid()
      reads this
    {
      DistinctIds(sensors)
    }

    /** An empty device, before its constructor sets name and location. */
    constructor Init(id: Id)
      ensures this.id == id && name == "" && location == "" && sensors == []
      ensures Valid()
    {
      this.id := id;
      name := "";
      location := "";
      sensors := [];
    }

    /** `new Device(name, location)`: runs `setName` (which may throw) and then
        `setLocation`. */
    static method Create(id: Id, name: Option<string>, location: Option<string>) returns (r: Result<Device>)
      ensures r.Err? <==> Missing(name)
      ensures r.Err? ==> r.error == DeviceNameRequired
      ensures r.Ok? ==> fresh(r.value) && r.value.Valid() && r.value.id == id
      ensures r.Ok? ==> r.value.name == Trim(name.value) && (r.value.name == "" <==> TrimsAway(name.value))
      ensures r.Ok? ==> r.value.location == TrimmedOrEmpty(location) && r.value.sensors == []
    {
      var d := new Device.Init(id);
      var ok := d.SetName(name);
      if ok.Fail? {
        return Err(ok.error);
      }
      d.SetLocation(location);
      return Ok(d);
    }

    /** `setName`: a missing or blank name is rejected and the old name kept;
        otherwise the trimmed name is stored. */
    method SetName(newName: Option<string>) returns (r: Outcome)
      modifies this`name
      ensures r.Fail? <==> Missing(newName)
      ensures r.Fail? ==> r.error == DeviceNameRequired && name == old(name)
      ensures r.Pass? ==> name == Trim(newName.value) && (name == "" <==> TrimsAway(newName.value))
    {
      if Missing(newName) {
        return Fail(DeviceNameRequired);
      }
      name := Trim(newName.value);
      return Pass;
    }

    /** `setLocation`: the trimmed location, or the empty string for null. */
    method SetLocation(newLocation: Option<string>)
      modifies this`location
      ensures location == TrimmedOrEmpty(newLocation)
    {
      location := TrimmedOrEmpty(newLocation);
    }

    /** `addSensor`: rejects null, otherwise puts the sensor under its id. */
    method AddSensor(s: Sensor?) returns (r: Outcome)
      requires Valid()
      modifies this`sensors
      ensures Valid()
      ensures r.Fail? <==> s == null
      ensures r.Fail? ==> r.error == SensorNull && sensors == old(sensors)
      ensures r.Pass? ==> sensors == Put(old(sensors), s)
      ensures r.Pass? ==> GetSensorById(s.id) == Some(s as Sensor)
    {
      if s == null {
        return Fail(SensorNull);
      }
      sensors := Put(sensors, s);
      PutThenGet(old(sensors), s);
      return Pass;
    }

    /** `getSensorById`: the sensor stored under `sid`, or null. */
    function GetSensorById(sid: Id): (r: Option<Sensor>)
      reads this
      ensures r.Some? ==> r.value in sensors && r.value.id == sid
      ensures r.None? ==> forall s | s in sensors :: s.id != sid
    {
      var k := IndexOf(sensors, sid);
      if k.None? then None else Some(sensors[k.value])
    }
  }

  /** With distinct ids, the position of a sensor carrying `sid` is the one
      the lookup finds. */
  lemma IndexOfUnique(ss: seq<Sensor>, sid: Id, i: int)
    requires DistinctIds(ss) && 0 <= i < |ss| && ss[i].id == sid
    ensures IndexOf(ss, sid) == Some(i)
  {
    var k := IndexOf(ss, sid);
    assert k.Some?;
    assert ss[k.value].id == sid;
  }

  /** After a put, looking the sensor's id up finds that very sensor. */
  lemma PutThenGet(ss: seq<Sensor>, s: Sensor)
    requires DistinctIds(ss)
    ensures IndexOf(Put(ss, s), s.id).Some?
    ensures Put(ss, s)[IndexOf(Put(ss, s), s.id).value] == s
  {
    var r := Put(ss, s);
    var i :| 0 <= i < |r| && r[i] == s;
    IndexOfUnique(r, s.id, i);
  }

  /** Putting a sensor leaves every other sensor findable exactly as before. */
  lemma PutKeepsOthers(ss: seq<Sensor>, s: Sensor, sid: Id)
    requires DistinctIds(ss) && sid != s.id
    ensures var k0, k1 := IndexOf(ss, sid), IndexOf(Put(ss, s), sid);
            k0.Some? == k1.Some? && (k0.Some? ==> ss[k0.value] == Put(ss, s)[k1.value])
  {
    var r := Put(ss, s);
    var k0 := IndexOf(ss, sid);
    if k0.Some? {
      assert r[k0.value] == ss[k0.value];
      IndexOfUnique(r, sid, k0.value);
    }
  }
}
