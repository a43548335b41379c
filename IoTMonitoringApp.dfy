/** The monitor's orchestration: registries of devices, sensors, thresholds,
    alerts and tickets, and the workflow operations of its menu with the
    console prompts replaced by parameters. */
module Monitoring {
  import opened Common
  import opened Text
  import opened Ids
  import opened Thresholds
  import opened Readings
  import opened Technicians
  import opened Sensors
  import opened Devices
  import opened Alerts
  import opened Tickets
  import opened Evaluation
  import opened Workflow

  /** How a menu operation ended: done, stopped by a picker that found
      nothing, stopped by the status guard of the alert picker, or an
      exception reported to the operator. */
  datatype Status = Done | NotFound | StatusMismatch | Rejected(error: Error)

  /** The scan's view of one sensor. */
  function View(s: Sensor): SensorView
    reads s
  {
    SensorView(s.sensorType, s.lastReading)
  }

  /** The scan's view of a device's sensors, in order. */
  function Views(ss: seq<Sensor>): (vs: seq<SensorView>)
    reads ss
    ensures |vs| == |ss|
    ensures forall i | 0 <= i < |ss| :: vs[i] == View(ss[i])
    decreases |ss|
  {
    if ss == [] then [] else Views(ss[..|ss| - 1]) + [View(ss[|ss| - 1])]
  }

  class App {
    var devices: map<Id, Device>
    var sensors: map<Id, Sensor>
    var thresholds: seq<Threshold>
    /** The alert registry, each alert held as its state. */
    var alerts: AlertTable
    /** The ticket registry, each ticket held as its state. */
    var tickets: TicketTable
    /** The identity source: the next identifier handed out is `Mint(serial)`. */
    var serial: nat

    /** Registry bookkeeping and the coherence of alerts and tickets. Each
        quantifier ranges over a per-key predicate, so a proof uses only the
        keys it names. */
    ghost predicate Valid()
      reads this, devices.Values
    {
      && (forall id :: DeviceOk(id))
      && (forall id :: SensorOk(id))
      && (forall id, i :: SensorRegistered(id, i))
      && (forall id :: KeyDrawn(id))
      && KeysOk()
      && Coherent(alerts, tickets)
    }

    /** A registered device is saved under its own non-blank id and holds
        sensors with distinct ids. */
    ghost predicate DeviceOk(id: Id)
      reads this`devices, DeviceObj(id)
    {
      id in devices ==> devices[id].id == id && !IsBlank(id) && devices[id].Valid()
    }

    /** A registered sensor is saved under its own non-blank id. */
    ghost predicate SensorOk(id: Id)
      reads this`sensors
    {
      id in sensors ==> sensors[id].id == id && !IsBlank(id)
    }

    /** The `i`-th sensor of device `id` is the object saved under its id in
        the global sensor registry. */
    ghost predicate SensorRegistered(id: Id, i: int)
      reads this`devices, this`sensors, DeviceObj(id)
    {
      id in devices && 0 <= i < |devices[id].sensors| ==>
        devices[id].sensors[i].id in sensors && sensors[devices[id].sensors[i].id] == devices[id].sensors[i]
    }

    /** A registered identifier was drawn before the counter's current value,
        so `Mint(serial)` is not yet in use. */
    ghost predicate KeyDrawn(id: Id)
      reads this`serial, this`devices, this`sensors, this`alerts, this`tickets
    {
      (id in devices || id in sensors || id in alerts || id in tickets) ==> DrawnBefore(id, serial)
    }

    /** Alerts and tickets are saved under their own ids. */
    ghost predicate KeysOk()
      reads this`alerts, this`tickets
    {
      && (forall id | id in alerts :: alerts[id].id == id)
      && (forall id | id in tickets :: tickets[id].id == id)
    }

    /** Every sensor held by some device. */
    function SensorObjs(): set<Sensor>
      reads this`devices, devices.Values
    {
      set id, i | id in devices && 0 <= i < |devices[id].sensors| :: devices[id].sensors[i]
    }

    /** The batch scan's input: each device's sensors in order. */
    ghost function Table(): map<Id, seq<SensorView>>
      reads this`devices, devices.Values, SensorObjs()
    {
      map id | id in devices :: Views(devices[id].sensors)
    }

    function DeviceObj(id: Id): set<Device>
      reads this`devices
    {
      if id in devices then {devices[id]} else {}
    }

    function SensorObj(id: Id): set<Sensor>
      reads this`sensors
    {
      if id in sensors then {sensors[id]} else {}
    }

    /** An empty monitor. */
    constructor ()
      ensures Valid()
      ensures devices == map[] && sensors == map[] && thresholds == [] && alerts == map[] && tickets == map[]
    {
      devices, sensors, thresholds, alerts, tickets := map[], map[], [], map[], map[];
      serial := 0;
      EmptyCoherent();
    }

    /** Hands out the next identifier. */
    method Draw() returns (id: Id)
      requires Valid()
      modifies this`serial
      ensures Valid()
      ensures id == Mint(old(serial)) && serial == old(serial) + 1
      ensures id !in devices && id !in sensors && id !in alerts && id !in tickets
    {
      id := Mint(serial);
      MintDrawn(serial);
      assert KeyDrawn(id);
      serial := serial + 1;
      forall k
        ensures KeyDrawn(k) && DeviceOk(k)
      {
        assert old(KeyDrawn(k)) && old(DeviceOk(k));
      }
      forall k, i
        ensures SensorRegistered(k, i)
      {
        assert old(SensorRegistered(k, i));
      }
    }

    /** Saves a new device with no sensors under the identifier it was
        created with, which must be the next one. */
    method PutDevice(d: Device)
      requires Valid()
      requires d.id == Mint(serial) && d.Valid() && d.sensors == []
      modifies this`devices, this`serial
      ensures Valid()
      ensures d.id !in old(devices)
      ensures devices == old(devices)[d.id := d] && serial == old(serial) + 1
    {
      MintDrawn(serial);
      assert KeyDrawn(d.id);
      devices, serial := devices[d.id := d], serial + 1;
      forall id
        ensures DeviceOk(id) && KeyDrawn(id)
      {
        assert old(DeviceOk(id)) && old(KeyDrawn(id));
      }
      forall id, i
        ensures SensorRegistered(id, i)
      {
        assert old(SensorRegistered(id, i));
      }
    }

    /** Menu 1: a device with the given name and location. */
    method AddDevice(name: string, location: string) returns (st: Status)
      requires Valid()
      modifies this`devices, this`serial
      ensures Valid()
      ensures st == Done || st == Rejected(DeviceNameRequired)
      ensures st == Done <==> !IsBlank(name)
      ensures st.Rejected? ==> devices == old(devices) && serial == old(serial)
      ensures st == Done ==> var id := Mint(old(serial));
              && serial == old(serial) + 1
              && id !in old(devices) && id in devices
              && devices == old(devices)[id := devices[id]]
              && fresh(devices[id]) && devices[id].name == Trim(name)
              && devices[id].location == Trim(location) && devices[id].sensors == []
    {
      var r := Device.Create(Mint(serial), Some(name), Some(location));
      if r.Err? {
        return Rejected(r.error);
      }
      PutDevice(r.value);
      return Done;
    }

    /** Adds a sensor that carries the next identifier to device `deviceId`
        and to the global sensor registry. */
    method PutSensor(deviceId: Id, s: Sensor)
      requires Valid()
      requires deviceId in devices && s.id == Mint(serial)
      modifies this`sensors, this`serial, DeviceObj(deviceId)`sensors
      ensures Valid()
      ensures s.id !in old(sensors)
      ensures sensors == old(sensors)[s.id := s] && serial == old(serial) + 1
      ensures devices[deviceId].sensors == old(devices[deviceId].sensors) + [s]
    {
      var d := devices[deviceId];
      MintDrawn(serial);
      assert KeyDrawn(s.id);
      forall i | 0 <= i < |d.sensors|
        ensures d.sensors[i] != s
      {
        assert SensorRegistered(deviceId, i) && KeyDrawn(d.sensors[i].id);
      }
      RegisterSensor(s);
      AttachSensor(deviceId, s);
    }

    /** Saves sensor `s`, which carries the next identifier and is not yet
        held by any device, in the global sensor registry. */
    method RegisterSensor(s: Sensor)
      requires Valid()
      requires s.id == Mint(serial)
      modifies this`sensors, this`serial
      ensures Valid()
      ensures s.id !in old(sensors)
      ensures sensors == old(sensors)[s.id := s] && serial == old(serial) + 1
    {
      MintDrawn(serial);
      assert KeyDrawn(s.id);
      sensors, serial := sensors[s.id := s], serial + 1;
      forall id
        ensures SensorOk(id) && KeyDrawn(id) && DeviceOk(id)
      {
        assert old(SensorOk(id)) && old(KeyDrawn(id)) && old(DeviceOk(id));
      }
      forall id, i
        ensures SensorRegistered(id, i)
      {
        assert old(SensorRegistered(id, i));
      }
    }

    /** Appends registered sensor `s` to device `deviceId`, which does not
        hold it yet. */
    method AttachSensor(deviceId: Id, s: Sensor)
      requires Valid()
      requires deviceId in devices && s.id in sensors && sensors[s.id] == s
      requires s !in devices[deviceId].sensors
      modifies DeviceObj(deviceId)`sensors
      ensures Valid()
      ensures devices[deviceId].sensors == old(devices[deviceId].sensors) + [s]
    {
      var d := devices[deviceId];
      assert DeviceOk(deviceId);
      forall i | 0 <= i < |d.sensors|
        ensures d.sensors[i].id != s.id
      {
        assert SensorRegistered(deviceId, i);
      }
      ghost var ss := d.sensors;
      var ok := d.AddSensor(s);
      assert d.sensors == ss + [s];
      forall id
        ensures DeviceOk(id)
      {
        assert old(DeviceOk(id));
      }
      forall id, i
        ensures SensorRegistered(id, i)
      {
        if id != deviceId || i != |ss| {
          assert old(SensorRegistered(id, i));
        }
      }
    }

    /** Menu 2: a sensor of the given type and unit, added both to the
        device and to the global sensor registry. */
    method AddSensor(deviceId: Id, sensorType: string, unit: string) returns (st: Status)
      requires Valid()
      modifies this`sensors, this`serial, DeviceObj(deviceId)`sensors
      ensures Valid()
      ensures st == Done || st == NotFound || st == Rejected(SensorTypeRequired)
      ensures st == NotFound <==> deviceId !in devices
      ensures st.Rejected? <==> deviceId in devices && IsBlank(sensorType)
      ensures st != Done ==> sensors == old(sensors) && serial == old(serial)
      ensures st.Rejected? ==> devices[deviceId].sensors == old(devices[deviceId].sensors)
      ensures st == Done ==> var id := Mint(old(serial));
              && serial == old(serial) + 1
              && id !in old(sensors) && id in sensors
              && sensors == old(sensors)[id := sensors[id]]
              && fresh(sensors[id]) && sensors[id].sensorType == Trim(sensorType)
              && sensors[id].unit == Trim(unit) && sensors[id].lastReading == None && sensors[id].lastSeen == None
              && devices[deviceId].sensors == old(devices[deviceId].sensors) + [sensors[id]]
    {
      if deviceId !in devices {
        return NotFound;
      }
      var r := Sensor.Create(Mint(serial), Some(sensorType), Some(unit));
      if r.Err? {
        return Rejected(r.error);
      }
      PutSensor(deviceId, r.value);
      return Done;
    }

    /** Menu 3: a threshold for the device and sensor type; a missing severity
        answer means MEDIUM. */
    method SetThreshold(deviceId: Id, sensorType: string, minValue: Option<real>, maxValue: Option<real>, severity: Option<Severity>)
      returns (st: Status)
      requires Valid()
      modifies this`thresholds, this`serial
      ensures Valid()
      ensures st == NotFound <==> deviceId !in devices
      ensures deviceId in devices ==>
                st == match NewThreshold(Mint(old(serial)), Some(deviceId), Some(sensorType), minValue, maxValue, Some(SeverityOrMedium(severity)))
                      case Ok(_) => Done
                      case Err(e) => Rejected(e)
      ensures st == Done ==> && serial == old(serial) + 1
                             && thresholds == old(thresholds) +
                                [NewThreshold(Mint(old(serial)), Some(deviceId), Some(sensorType), minValue, maxValue, Some(SeverityOrMedium(severity))).value]
      ensures st != Done ==> thresholds == old(thresholds) && serial == old(serial)
    {
      if deviceId !in devices {
        return NotFound;
      }
      var d := devices[deviceId];
      assert DeviceOk(deviceId);
      var r := NewThreshold(Mint(serial), Some(d.id), Some(sensorType), minValue, maxValue, Some(SeverityOrMedium(severity)));
      if r.Err? {
        return Rejected(r.error);
      }
      thresholds, serial := thresholds + [r.value], serial + 1;
      forall k
        ensures KeyDrawn(k) && DeviceOk(k)
      {
        assert old(KeyDrawn(k)) && old(DeviceOk(k));
      }
      forall k, i
        ensures SensorRegistered(k, i)
      {
        assert old(SensorRegistered(k, i));
      }
      return Done;
    }

    /** Saves a new NEW alert for `reading` under the next identifier. */
    method RaiseAlert(reading: Reading, sensorType: string, severity: Severity, now: Time)
      requires Valid()
      modifies this`alerts, this`serial
      ensures Valid()
      ensures serial == old(serial) + 1
      ensures alerts == old(alerts)[Mint(old(serial)) := Raised(Mint(old(serial)), reading, sensorType, Some(severity), now)]
    {
      var id := Mint(serial);
      MintDrawn(serial);
      assert KeyDrawn(id);
      var a := Raised(id, reading, sensorType, Some(severity), now);
      RaiseKeepsCoherent(alerts, tickets, a);
      alerts, serial := alerts[id := a], serial + 1;
      forall k
        ensures KeyDrawn(k) && DeviceOk(k)
      {
        assert old(KeyDrawn(k)) && old(DeviceOk(k));
      }
      forall k, i
        ensures SensorRegistered(k, i)
      {
        assert old(SensorRegistered(k, i));
      }
    }

    /** Raises the alert for `c` as the next of a batch `cs` begun over the
        registry `a0` with the counter at `s0`. */
    method RaiseNext(c: Candidate, now: Time, ghost a0: AlertTable, ghost s0: nat, ghost cs: seq<Candidate>)
      requires Valid()
      requires serial == s0 + |cs| && alerts == RaiseAll(a0, s0, cs, now)
      modifies this`alerts, this`serial
      ensures Valid()
      ensures serial == s0 + |cs + [c]| && alerts == RaiseAll(a0, s0, cs + [c], now)
    {
      RaiseAlert(c.reading, c.sensorType, c.severity, now);
      assert (cs + [c])[..|cs|] == cs;
    }

    /** A reading of `value` under the next identifier, stamped `now`, made
        the last reading of the sensor saved under `sensorId`, which is then
        touched. */
    method Record(deviceId: Id, sensorId: Id, value: real, now: Time) returns (r: Reading)
      requires Valid() && deviceId in devices && sensorId in sensors
      modifies this`serial, SensorObj(sensorId)
      ensures Valid()
      ensures r == Reading(Mint(old(serial)), deviceId, sensorId, now, value) && serial == old(serial) + 1
      ensures sensors[sensorId].lastReading == Some(r) && sensors[sensorId].lastSeen == Some(now)
    {
      assert DeviceOk(deviceId) && SensorOk(sensorId);
      var rid := Draw();
      var rr := NewReading(rid, Some(deviceId), Some(sensorId), Some(now), value);
      r := rr.value;
      var s := sensors[sensorId];
      s.SetLastReading(r);
      s.Touch(now);
      forall k
        ensures DeviceOk(k)
      {
        assert old(DeviceOk(k));
      }
      forall k, i
        ensures SensorRegistered(k, i)
      {
        assert old(SensorRegistered(k, i));
      }
    }

    /** Menu 4: a reading of `value` for the sensor picked from the global
        registry, once the device is found and has sensors. The reading
        becomes the sensor's last one, and every threshold of the device whose
        type matches and which the value breaches raises one alert. */
    method IngestReading(deviceId: Id, sensorId: Id, value: real, now: Time) returns (st: Status)
      requires Valid()
      modifies this`alerts, this`serial, SensorObj(sensorId)
      ensures Valid()
      ensures st == Done || st == NotFound
      ensures st == NotFound <==>
                deviceId !in devices || old(devices[deviceId].sensors) == [] || sensorId !in sensors
      ensures st == NotFound ==> serial == old(serial) && alerts == old(alerts)
      ensures st == NotFound ==> unchanged(old(SensorObj(sensorId)))
      ensures st == Done ==>
                var r := Reading(Mint(old(serial)), deviceId, sensorId, now, value);
                var cs := Evaluate(r, sensors[sensorId].sensorType, thresholds);
                && sensors[sensorId].lastReading == Some(r)
                && sensors[sensorId].lastSeen == Some(now)
                && serial == old(serial) + 1 + |cs|
                && alerts == RaiseAll(old(alerts), old(serial) + 1, cs, now)
    {
      if deviceId !in devices {
        return NotFound;
      }
      var d := devices[deviceId];
      if d.sensors == [] {
        return NotFound;
      }
      if sensorId !in sensors {
        return NotFound;
      }
      AcceptReading(deviceId, sensorId, value, now);
      return Done;
    }

    /** The ingest path past its pickers: the reading is recorded on the
        sensor and then checked against the thresholds. */
    method AcceptReading(deviceId: Id, sensorId: Id, value: real, now: Time)
      requires Valid() && deviceId in devices && sensorId in sensors
      modifies this`alerts, this`serial, SensorObj(sensorId)
      ensures Valid()
      ensures var r := Reading(Mint(old(serial)), deviceId, sensorId, now, value);
              var cs := Evaluate(r, sensors[sensorId].sensorType, thresholds);
              && sensors[sensorId].lastReading == Some(r)
              && sensors[sensorId].lastSeen == Some(now)
              && serial == old(serial) + 1 + |cs|
              && alerts == RaiseAll(old(alerts), old(serial) + 1, cs, now)
    {
      var s := sensors[sensorId];
      var r := Record(deviceId, sensorId, value, now);
      CheckReading(r, s.sensorType, now);
    }

    /** The immediate check of the ingest path: each threshold of the
        reading's device whose type matches `sensorType` and which the value
        breaches raises one alert, in registry order. */
    method CheckReading(r: Reading, sensorType: string, now: Time)
      requires Valid()
      modifies this`alerts, this`serial
      ensures Valid()
      ensures var cs := Evaluate(r, sensorType, thresholds);
              && serial == old(serial) + |cs|
              && alerts == RaiseAll(old(alerts), old(serial), cs, now)
    {
      ghost var s0, a0 := serial, alerts;
      var i := 0;
      while i < |thresholds|
        invariant 0 <= i <= |thresholds|
        invariant Valid()
        invariant serial == s0 + |Evaluate(r, sensorType, thresholds[..i])|
        invariant alerts == RaiseAll(a0, s0, Evaluate(r, sensorType, thresholds[..i]), now)
      {
        var t := thresholds[i];
        ghost var cs := Evaluate(r, sensorType, thresholds[..i]);
        EvaluateSnoc(r, sensorType, thresholds[..i], t);
        assert thresholds[..i + 1] == thresholds[..i] + [t];
        ghost var step := if t.deviceId == r.deviceId && Fires(t, sensorType, r.value)
                          then [Candidate(r, sensorType, t.severity)] else [];
        if t.deviceId == r.deviceId && EqualsIgnoreCase(t.sensorType, sensorType) {
          if IsBreached(t, r.value) {
            RaiseNext(Candidate(r, sensorType, t.severity), now, a0, s0, cs);
          } else {
            assert cs + step == cs;
          }
        } else {
          assert cs + step == cs;
        }
        i := i + 1;
      }
      assert thresholds[..i] == thresholds;
    }

    /** The batch scan's inner loop: threshold `t` against each sensor of
        device `d` in order, `vs` being what the scan sees of them, as the
        next part of a batch `done` begun over `a0` with the counter at `s0`. */
    method ScanDevice(t: Threshold, d: Device, now: Time, ghost vs: seq<SensorView>,
                      ghost a0: AlertTable, ghost s0: nat, ghost done: seq<Candidate>)
      requires Valid()
      requires |vs| == |d.sensors|
      requires forall k | 0 <= k < |vs| :: vs[k] == SensorView(d.sensors[k].sensorType, d.sensors[k].lastReading)
      requires serial == s0 + |done| && alerts == RaiseAll(a0, s0, done, now)
      modifies this`alerts, this`serial
      ensures Valid()
      ensures serial == s0 + |done + ScanSensors(t, vs)| && alerts == RaiseAll(a0, s0, done + ScanSensors(t, vs), now)
    {
      assert done + ScanSensors(t, vs[..0]) == done;
      var j := 0;
      while j < |d.sensors|
        invariant 0 <= j <= |d.sensors|
        invariant Valid()
        invariant serial == s0 + |done + ScanSensors(t, vs[..j])|
        invariant alerts == RaiseAll(a0, s0, done + ScanSensors(t, vs[..j]), now)
      {
        var s := d.sensors[j];
        ghost var cs := done + ScanSensors(t, vs[..j]);
        ScanSensorsPrefix(t, vs, j, done);
        ScanStep(t, s, now, vs[j], a0, s0, cs);
        j := j + 1;
      }
      assert vs[..j] == vs;
    }

    /** One pair of the batch scan: threshold `t` against sensor `s`, whose
        view is `v`, as the next part of a batch `cs` begun over `a0` with
        the counter at `s0`. */
    method ScanStep(t: Threshold, s: Sensor, now: Time, ghost v: SensorView,
                    ghost a0: AlertTable, ghost s0: nat, ghost cs: seq<Candidate>)
      requires Valid()
      requires v == SensorView(s.sensorType, s.lastReading)
      requires serial == s0 + |cs| && alerts == RaiseAll(a0, s0, cs, now)
      modifies this`alerts, this`serial
      ensures Valid()
      ensures serial == s0 + |cs + ScanPair(t, v)| && alerts == RaiseAll(a0, s0, cs + ScanPair(t, v), now)
    {
      ghost var step := ScanPair(t, v);
      if EqualsIgnoreCase(s.sensorType, t.sensorType) {
        var lr := s.lastReading;
        if lr.Some? && IsBreached(t, lr.value.value) {
          var c := Candidate(lr.value, s.sensorType, t.severity);
          assert step == [c];
          RaiseNext(c, now, a0, s0, cs);
        } else {
          assert cs + step == cs;
        }
      } else {
        assert cs + step == cs;
      }
    }

    /** Menu 5: re-checks every sensor's last reading against every
        threshold, raising one alert per breaching pair, with no duplicate
        suppression. */
    method GenerateAlerts(now: Time)
      requires Valid()
      modifies this`alerts, this`serial
      ensures Valid()
      ensures var cs := Scan(thresholds, old(Table()));
              && serial == old(serial) + |cs|
              && alerts == RaiseAll(old(alerts), old(serial), cs, now)
    {
      ghost var table, s0, a0 := Table(), serial, alerts;
      forall id
        ensures Sees(table, id)
      {
        if id in devices {
          assert table[id] == Views(devices[id].sensors);
        }
      }
      var i := 0;
      while i < |thresholds|
        invariant 0 <= i <= |thresholds|
        invariant Valid()
        invariant forall id :: Sees(table, id)
        invariant serial == s0 + |Scan(thresholds[..i], table)|
        invariant alerts == RaiseAll(a0, s0, Scan(thresholds[..i], table), now)
      {
        ScanPrefix(thresholds, i, table);
        ScanThresholdStep(thresholds[i], now, table, a0, s0, Scan(thresholds[..i], table));
        i := i + 1;
      }
      assert thresholds[..i] == thresholds;
    }

    /** `table` holds what the batch scan sees of device `id`'s sensors. */
    ghost predicate Sees(table: map<Id, seq<SensorView>>, id: Id)
      reads this`devices, DeviceObj(id), SensorsOf(id)
    {
      && (id in table <==> id in devices)
      && (id in devices ==>
            && |table[id]| == |devices[id].sensors|
            && forall k | 0 <= k < |table[id]| ::
                 table[id][k] == SensorView(devices[id].sensors[k].sensorType, devices[id].sensors[k].lastReading))
    }

    function SensorsOf(id: Id): set<Sensor>
      reads this`devices, DeviceObj(id)
    {
      if id in devices then set s | s in devices[id].sensors else {}
    }

    /** One threshold of the batch scan: the sensors of its device as
        `table` shows them, or nothing when the device is absent. */
    method ScanThresholdStep(t: Threshold, now: Time, ghost table: map<Id, seq<SensorView>>,
                             ghost a0: AlertTable, ghost s0: nat, ghost done: seq<Candidate>)
      requires Valid()
      requires forall id :: Sees(table, id)
      requires serial == s0 + |done| && alerts == RaiseAll(a0, s0, done, now)
      modifies this`alerts, this`serial
      ensures Valid()
      ensures forall id :: Sees(table, id)
      ensures serial == s0 + |done + ScanThreshold(t, table)|
      ensures alerts == RaiseAll(a0, s0, done + ScanThreshold(t, table), now)
    {
      assert Sees(table, t.deviceId);
      if t.deviceId in devices {
        ScanDevice(t, devices[t.deviceId], now, table[t.deviceId], a0, s0, done);
        forall id
          ensures Sees(table, id)
        {
          assert old(Sees(table, id));
        }
      } else {
        assert done + ScanThreshold(t, table) == done;
      }
    }

    /** Menu 6: the alert picker requires NEW; the alert is then acknowledged. */
    method AcknowledgeAlert(alertId: Id, who: string, now: Time) returns (st: Status)
      requires Valid()
      modifies this`alerts
      ensures Valid()
      ensures st == Done || st == NotFound || st == StatusMismatch
      ensures st == NotFound <==> alertId !in old(alerts)
      ensures st == StatusMismatch <==> alertId in old(alerts) && old(alerts)[alertId].status != New
      ensures st == Done ==>
                && alertId in old(alerts)
                && alerts == old(alerts)[alertId := AfterAcknowledge(old(alerts)[alertId], who, now).value]
      ensures st != Done ==> alerts == old(alerts)
    {
      if alertId !in alerts {
        return NotFound;
      }
      var a := alerts[alertId];
      if a.status != New {
        return StatusMismatch;
      }
      AcknowledgeKeepsCoherent(alerts, tickets, alertId, who, now);
      alerts := alerts[alertId := AfterAcknowledge(a, who, now).value];
      forall k
        ensures KeyDrawn(k) && DeviceOk(k)
      {
        assert old(KeyDrawn(k)) && old(DeviceOk(k));
      }
      forall k, i
        ensures SensorRegistered(k, i)
      {
        assert old(SensorRegistered(k, i));
      }
      return Done;
    }

    /** Menu 7: the alert picker requires ACKNOWLEDGED; a ticket is opened
        from the alert, registered, and linked back from the alert. */
    method CreateTicket(alertId: Id, description: string, now: Time) returns (st: Status)
      requires Valid()
      modifies this`tickets, this`alerts, this`serial
      ensures Valid()
      ensures st == Done || st == NotFound || st == StatusMismatch
      ensures st == NotFound <==> alertId !in old(alerts)
      ensures st == StatusMismatch <==> alertId in old(alerts) && old(alerts)[alertId].status != Acknowledged
      ensures st != Done ==> tickets == old(tickets) && alerts == old(alerts) && serial == old(serial)
      ensures st == Done ==> var tid := Mint(old(serial));
              && serial == old(serial) + 1
              && tid !in old(tickets) && alertId in old(alerts)
              && tickets == old(tickets)[tid := Opened(tid, Some(old(alerts)[alertId]), Some(description), now).value]
              && alerts == old(alerts)[alertId := AfterLinkTicket(old(alerts)[alertId], Some(tid))]
              && alerts[alertId].linkedTicketId == Some(tid) && tickets[tid].alertId == alertId
              && alerts[alertId].status == Acknowledged && tickets[tid].status == Open
    {
      if alertId !in alerts {
        return NotFound;
      }
      var a := alerts[alertId];
      if a.status != Acknowledged {
        return StatusMismatch;
      }
      var tid := Mint(serial);
      MintDrawn(serial);
      assert KeyDrawn(tid);
      var r := Opened(tid, Some(a), Some(description), now);
      OpenKeepsCoherent(alerts, tickets, alertId, tid, description, now);
      tickets, alerts, serial := tickets[tid := r.value], alerts[alertId := AfterLinkTicket(a, Some(tid))], serial + 1;
      forall k
        ensures KeyDrawn(k) && DeviceOk(k)
      {
        assert old(KeyDrawn(k)) && old(DeviceOk(k));
      }
      forall k, i
        ensures SensorRegistered(k, i)
      {
        assert old(SensorRegistered(k, i));
      }
      return Done;
    }

    /** Menu 8: an action on the picked ticket, by the picked technician or by
        the system when there is none. */
    method AddTechAction(ticketId: Id, action: string, tech: Option<Technician>, now: Time) returns (st: Status)
      requires Valid()
      modifies this`tickets
      ensures Valid()
      ensures st == Done || st == NotFound || st == Rejected(ActionRequired)
      ensures st == NotFound <==> ticketId !in old(tickets)
      ensures st.Rejected? <==> ticketId in old(tickets) && IsBlank(action)
      ensures st != Done ==> tickets == old(tickets)
      ensures st == Done ==>
                && ticketId in old(tickets)
                && tickets == old(tickets)[ticketId := AfterAddAction(old(tickets)[ticketId], Some(action), tech, now).value]
    {
      if ticketId !in tickets {
        return NotFound;
      }
      var r := AfterAddAction(tickets[ticketId], Some(action), tech, now);
      if r.Err? {
        return Rejected(r.error);
      }
      AddActionKeepsCoherent(alerts, tickets, ticketId, action, tech, now);
      tickets := tickets[ticketId := r.value];
      forall k
        ensures KeyDrawn(k) && DeviceOk(k)
      {
        assert old(KeyDrawn(k)) && old(DeviceOk(k));
      }
      forall k, i
        ensures SensorRegistered(k, i)
      {
        assert old(SensorRegistered(k, i));
      }
      return Done;
    }

    /** Menu 9: closes the picked ticket; only if that succeeds is the alert
        it was opened from resolved. */
    method CloseTicket(ticketId: Id) returns (st: Status)
      requires Valid()
      modifies this`tickets, this`alerts
      ensures Valid()
      ensures st == Done || st == NotFound || st == Rejected(ActionNeededToClose)
      ensures st == NotFound <==> ticketId !in old(tickets)
      ensures st.Rejected? <==> ticketId in old(tickets) && old(tickets)[ticketId].actionLogs == []
      ensures st != Done ==> tickets == old(tickets) && alerts == old(alerts)
      ensures st == Done ==> ticketId in old(tickets)
      ensures st == Done ==>
                var t := old(tickets)[ticketId];
                && t.actionLogs != [] && t.alertId in old(alerts)
                && tickets == old(tickets)[ticketId := AfterClose(t).value]
                && alerts == old(alerts)[t.alertId := AfterResolve(old(alerts)[t.alertId])]
    {
      if ticketId !in tickets {
        return NotFound;
      }
      var t := tickets[ticketId];
      var r := AfterClose(t);
      if r.Err? {
        return Rejected(r.error);
      }
      CloseKeepsCoherent(alerts, tickets, ticketId);
      tickets, alerts := tickets[ticketId := r.value], alerts[t.alertId := AfterResolve(alerts[t.alertId])];
      forall k
        ensures KeyDrawn(k) && DeviceOk(k)
      {
        assert old(KeyDrawn(k)) && old(DeviceOk(k));
      }
      forall k, i
        ensures SensorRegistered(k, i)
      {
        assert old(SensorRegistered(k, i));
      }
      return Done;
    }
  }
}
