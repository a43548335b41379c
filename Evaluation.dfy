/** The decision rules of the monitor's two evaluation paths, as functions of
    values: the immediate check that follows an ingest, and the batch re-scan
    of every sensor's last reading. Both decide with the same rule: the sensor
    type matches ignoring case and the value breaches the threshold. */
module Evaluation {
  import opened Common
  import opened Text
  import opened Thresholds
  import opened Readings

  /** What one alert is raised for: the reading, the sensor type it is filed
      under, and the severity of the threshold that fired. */
  datatype Candidate = Candidate(reading: Reading, sensorType: string, severity: Severity)

  /** The rule both paths share. */
  predicate Fires(t: Threshold, sensorType: string, v: real)
  {
    EqualsIgnoreCase(t.sensorType, sensorType) && IsBreached(t, v)
  }

  /** The ingest filter: thresholds of this device whose type matches, and
      of those the ones the value breaches, in registry order. */
  function Selected(ts: seq<Threshold>, deviceId: Id, sensorType: string, v: real): (sel: seq<Threshold>)
    ensures |sel| <= |ts|
    decreases |ts|
  {
    if ts == [] then []
    else
      var t := ts[|ts| - 1];
      Selected(ts[..|ts| - 1], deviceId, sensorType, v) +
        (if t.deviceId == deviceId && Fires(t, sensorType, v) then [t] else [])
  }

  /** Each threshold is selected exactly as many times as it is registered
      when it applies and fires, and never otherwise. */
  lemma {:induction false} SelectedCount(ts: seq<Threshold>, deviceId: Id, sensorType: string, v: real, t: Threshold)
    ensures multiset(Selected(ts, deviceId, sensorType, v))[t] ==
            if t.deviceId == deviceId && Fires(t, sensorType, v) then multiset(ts)[t] else 0
    ensures t in Selected(ts, deviceId, sensorType, v) <==>
            t in ts && t.deviceId == deviceId && Fires(t, sensorType, v)
    decreases |ts|
  {
    if ts != [] {
      var init := ts[..|ts| - 1];
      SelectedCount(init, deviceId, sensorType, v, t);
      assert ts == init + [ts[|ts| - 1]];
    }
  }

  /** The alerts the immediate check raises for reading `r` of a sensor of
      type `sensorType`: one per selected threshold, carrying its severity. */
  function Evaluate(r: Reading, sensorType: string, ts: seq<Threshold>): (cs: seq<Candidate>)
    ensures var sel := Selected(ts, r.deviceId, sensorType, r.value);
            |cs| == |sel| && forall i | 0 <= i < |cs| :: cs[i] == Candidate(r, sensorType, sel[i].severity)
  {
    var sel := Selected(ts, r.deviceId, sensorType, r.value);
    seq(|sel|, i requires 0 <= i < |sel| => Candidate(r, sensorType, sel[i].severity))
  }

  /** Evaluating one more threshold appends at most one alert, for that
      threshold. */
  lemma EvaluateSnoc(r: Reading, sensorType: string, ts: seq<Threshold>, t: Threshold)
    ensures Evaluate(r, sensorType, ts + [t]) ==
            Evaluate(r, sensorType, ts) +
              (if t.deviceId == r.deviceId && Fires(t, sensorType, r.value)
               then [Candidate(r, sensorType, t.severity)] else [])
  {
    assert (ts + [t])[..|ts|] == ts;
  }

  /** An alert the immediate check raises is for a threshold of the reading's
      device whose type matches and which the value breaches; conversely
      every such threshold raises one. */
  lemma EvaluateExact(r: Reading, sensorType: string, ts: seq<Threshold>, t: Threshold)
    ensures Candidate(r, sensorType, t.severity) in Evaluate(r, sensorType, ts) <==>
            exists u | u in ts :: u.deviceId == r.deviceId && Fires(u, sensorType, r.value) && u.severity == t.severity
  {
    var sel := Selected(ts, r.deviceId, sensorType, r.value);
    var cs := Evaluate(r, sensorType, ts);
    if Candidate(r, sensorType, t.severity) in cs {
      var i :| 0 <= i < |cs| && cs[i] == Candidate(r, sensorType, t.severity);
      SelectedCount(ts, r.deviceId, sensorType, r.value, sel[i]);
      assert sel[i] in sel;
    }
    if exists u | u in ts :: u.deviceId == r.deviceId && Fires(u, sensorType, r.value) && u.severity == t.severity {
      var u :| u in ts && u.deviceId == r.deviceId && Fires(u, sensorType, r.value) && u.severity == t.severity;
      SelectedCount(ts, r.deviceId, sensorType, r.value, u);
      var i :| 0 <= i < |sel| && sel[i] == u;
      assert cs[i] == Candidate(r, sensorType, t.severity);
    }
  }

  /** A device with one threshold of at most 80.0 at HIGH for TEMPERATURE: a
      reading of 81.0 on a temperature sensor raises exactly one HIGH alert,
      and 80.0 raises none. */
  lemma EightyOneRaisesOneHigh(t: Threshold, r: Reading)
    requires t.deviceId == r.deviceId && t.sensorType == "TEMPERATURE"
    requires t.minValue == None && t.maxValue == Some(80.0) && t.severity == High
    ensures r.value == 81.0 ==> Evaluate(r, "temperature", [t]) == [Candidate(r, "temperature", High)]
    ensures r.value == 80.0 ==> Evaluate(r, "temperature", [t]) == []
  {
    EvaluateSnoc(r, "temperature", [], t);
    assert [] + [t] == [t];
  }

  /** A sensor as the batch scan sees it: its type and its last reading. */
  datatype SensorView = SensorView(sensorType: string, lastReading: Option<Reading>)

  /** One (threshold, sensor) pair of the scan: a sensor of another type, or
      without a reading, is skipped; otherwise an alert is raised iff the
      last reading breaches. */
  function ScanPair(t: Threshold, s: SensorView): (cs: seq<Candidate>)
    ensures |cs| <= 1
    ensures cs != [] ==> s.lastReading.Some? && cs == [Candidate(s.lastReading.value, s.sensorType, t.severity)]
  {
    if !EqualsIgnoreCase(s.sensorType, t.sensorType) then []
    else if s.lastReading.None? then []
    else if IsBreached(t, s.lastReading.value.value) then [Candidate(s.lastReading.value, s.sensorType, t.severity)]
    else []
  }

  /** The scan's inner loop over one device's sensors, in their order. */
  function ScanSensors(t: Threshold, ss: seq<SensorView>): (cs: seq<Candidate>)
    decreases |ss|
  {
    if ss == [] then [] else ScanSensors(t, ss[..|ss| - 1]) + ScanPair(t, ss[|ss| - 1])
  }

  /** The scan raises at most one alert per sensor of the device. */
  lemma {:induction false} ScanSensorsAtMostOnePerSensor(t: Threshold, ss: seq<SensorView>)
    ensures |ScanSensors(t, ss)| <= |ss|
    decreases |ss|
  {
    if ss != [] {
      ScanSensorsAtMostOnePerSensor(t, ss[..|ss| - 1]);
    }
  }

  /** One threshold of the scan: its device is looked up and skipped when absent. */
  function ScanThreshold(t: Threshold, devices: map<Id, seq<SensorView>>): (cs: seq<Candidate>)
    ensures t.deviceId !in devices ==> cs == []
  {
    if t.deviceId !in devices then [] else ScanSensors(t, devices[t.deviceId])
  }

  /** The whole batch scan: thresholds in registry order, each against the
      sensors of its device. */
  function Scan(ts: seq<Threshold>, devices: map<Id, seq<SensorView>>): (cs: seq<Candidate>)
    ensures (forall t | t in ts :: t.deviceId !in devices) ==> cs == []
    decreases |ts|
  {
    if ts == [] then [] else Scan(ts[..|ts| - 1], devices) + ScanThreshold(ts[|ts| - 1], devices)
  }

  /** Scanning one more sensor of a device appends that pair's alerts to
      those of the sensors before it. */
  lemma ScanSensorsPrefix(t: Threshold, vs: seq<SensorView>, j: int, done: seq<Candidate>)
    requires 0 <= j < |vs|
    ensures done + ScanSensors(t, vs[..j + 1]) == done + ScanSensors(t, vs[..j]) + ScanPair(t, vs[j])
  {
    assert vs[..j + 1][..j] == vs[..j];
  }

  /** Scanning one more threshold appends that threshold's alerts to those
      of the thresholds before it. */
  lemma ScanPrefix(ts: seq<Threshold>, i: int, devices: map<Id, seq<SensorView>>)
    requires 0 <= i < |ts|
    ensures Scan(ts[..i + 1], devices) == Scan(ts[..i], devices) + ScanThreshold(ts[i], devices)
  {
    assert ts[..i + 1][..i] == ts[..i];
  }

  /** The scan decides each pair by the rule of the immediate check. */
  lemma ScanPairUsesSameRule(t: Threshold, s: SensorView)
    ensures ScanPair(t, s) != [] <==> s.lastReading.Some? && Fires(t, s.sensorType, s.lastReading.value.value)
    ensures ScanPair(t, s) != [] ==> ScanPair(t, s) == [Candidate(s.lastReading.value, s.sensorType, t.severity)]
  {
    EqualsIgnoreCaseSymmetric(s.sensorType, t.sensorType);
  }

  /** The two paths agree: scanning a device whose one sensor holds reading
      `r` raises exactly the alerts that the immediate check raised for `r`. */
  lemma {:induction false} ScanAgreesWithIngest(r: Reading, sensorType: string, ts: seq<Threshold>)
    ensures Scan(ts, map[r.deviceId := [SensorView(sensorType, Some(r))]]) == Evaluate(r, sensorType, ts)
    decreases |ts|
  {
    var table := map[r.deviceId := [SensorView(sensorType, Some(r))]];
    if ts == [] {
      assert Evaluate(r, sensorType, ts) == [];
    } else {
      var init, t := ts[..|ts| - 1], ts[|ts| - 1];
      ScanAgreesWithIngest(r, sensorType, init);
      EvaluateSnoc(r, sensorType, init, t);
      assert ts == init + [t];
      var v := SensorView(sensorType, Some(r));
      ScanPairUsesSameRule(t, v);
      assert ScanSensors(t, [v]) == ScanPair(t, v) by {
        assert [v][..0] == [];
      }
      assert ScanThreshold(t, table) ==
             if t.deviceId == r.deviceId && Fires(t, sensorType, r.value)
             then [Candidate(r, sensorType, t.severity)] else [];
    }
  }

  /** Every alert the scan raises comes from a registered threshold whose
      device is known and whose type matches, carries that threshold's
      severity, and its reading breaches that threshold. */
  lemma {:induction false} ScanSound(ts: seq<Threshold>, devices: map<Id, seq<SensorView>>, c: Candidate)
    requires c in Scan(ts, devices)
    ensures exists t | t in ts ::
              && t.deviceId in devices && t.severity == c.severity
              && Fires(t, c.sensorType, c.reading.value)
              && SensorView(c.sensorType, Some(c.reading)) in devices[t.deviceId]
    decreases |ts|
  {
    var init, t := ts[..|ts| - 1], ts[|ts| - 1];
    if c in Scan(init, devices) {
      ScanSound(init, devices, c);
      var u :| u in init && u.deviceId in devices && u.severity == c.severity
               && Fires(u, c.sensorType, c.reading.value)
               && SensorView(c.sensorType, Some(c.reading)) in devices[u.deviceId];
      assert u in ts;
    } else {
      assert c in ScanThreshold(t, devices);
      ScanSensorsSound(t, devices[t.deviceId], c);
    }
  }

  lemma {:induction false} ScanSensorsSound(t: Threshold, ss: seq<SensorView>, c: Candidate)
    requires c in ScanSensors(t, ss)
    ensures t.severity == c.severity && Fires(t, c.sensorType, c.reading.value)
    ensures SensorView(c.sensorType, Some(c.reading)) in ss
    decreases |ss|
  {
    var init, s := ss[..|ss| - 1], ss[|ss| - 1];
    if c in ScanSensors(t, init) {
      ScanSensorsSound(t, init, c);
      assert forall x | x in init :: x in ss;
    } else {
      ScanPairUsesSameRule(t, s);
      assert s in ss;
    }
  }

  /** The converse of `ScanSound`: for every registered threshold whose device
      is known, every sensor of that device whose last reading fires the
      threshold's rule makes the scan raise that reading's alert with the
      threshold's severity. */
  lemma {:induction false} ScanComplete(ts: seq<Threshold>, devices: map<Id, seq<SensorView>>,
                                        t: Threshold, sensorType: string, r: Reading)
    requires t in ts && t.deviceId in devices
    requires SensorView(sensorType, Some(r)) in devices[t.deviceId] && Fires(t, sensorType, r.value)
    ensures Candidate(r, sensorType, t.severity) in Scan(ts, devices)
    decreases |ts|
  {
    var init, u := ts[..|ts| - 1], ts[|ts| - 1];
    assert ts == init + [u];
    if t in init {
      ScanComplete(init, devices, t, sensorType, r);
    } else {
      assert u == t;
      ScanSensorsComplete(t, devices[t.deviceId], sensorType, r);
    }
  }

  lemma {:induction false} ScanSensorsComplete(t: Threshold, ss: seq<SensorView>, sensorType: string, r: Reading)
    requires SensorView(sensorType, Some(r)) in ss && Fires(t, sensorType, r.value)
    ensures Candidate(r, sensorType, t.severity) in ScanSensors(t, ss)
    decreases |ss|
  {
    var init, v := ss[..|ss| - 1], ss[|ss| - 1];
    assert ss == init + [v];
    if v == SensorView(sensorType, Some(r)) {
      ScanPairUsesSameRule(t, v);
    } else {
      ScanSensorsComplete(t, init, sensorType, r);
    }
  }
}
