# IoT device monitor: a verified model of its decision core

The system is a console tool for monitoring IoT devices. Operators register
devices and their sensors, and set thresholds per device and sensor type
(optional lower and upper bounds, plus a severity). They then feed in
readings. Every reading is checked at once against the thresholds of its
device whose type matches (ignoring case), and each threshold the value
breaches raises its own NEW alert. A batch re-scan runs the same check over
every sensor's last reading. It raises the alerts again, since nothing
de-duplicates them.

Alerts move from NEW to ACKNOWLEDGED to RESOLVED. An operator acknowledges a
NEW alert. A maintenance ticket can be opened from an ACKNOWLEDGED alert,
which is then linked to the ticket. Technicians log actions on the ticket.
The ticket can only close once its log is non-empty, and only a successful
close resolves the alert it was opened from.

## Modules

| module | file | models |
|---|---|---|
| `Common` | Common.dfy | identifiers, timestamps, severities; `Option` replacing null, and `Result`/`Outcome` with one `Error` per exception message |
| `Text` | Text.dfy | `isBlank`, `trim`, `equalsIgnoreCase`; `IsWhitespace` is `Character.isWhitespace` and `IsBlank` holds iff every character is white space (Technician.java:11, Threshold.java:15-16) |
| `Ids` | Ids.dfy | the identifier source (replaces the random UUIDs) |
| `Thresholds` | Threshold.dfy | the threshold value, its validating constructor, and `isBreached` |
| `Readings` | Reading.dfy | the reading value and its validating constructor |
| `Technicians` | Technician.dfy | the technician value and its validating, trimming constructor |
| `Sensors` | Sensor.dfy | the `Sensor` class, with its last-reading slot |
| `Devices` | Device.dfy | the `Device` class; its insertion-ordered sensor map is a sequence with distinct ids |
| `Alerts` | Alert.dfy | the alert lifecycle, as pure step functions on `AlertState` and as the `Alert` class proved against them |
| `Tickets` | MaintenanceTicket.dfy | the ticket lifecycle, as pure step functions on `TicketState` and as the `MaintenanceTicket` class proved against them |
| `Evaluation` | Evaluation.dfy | the immediate check (`Selected`, `Evaluate`) and the batch scan (`ScanPair`, `ScanSensors`, `ScanThreshold`, `Scan`) as functions of values; `ScanSensors` is the inner loop over one device's sensors, in their order (IoTMonitoringApp.java:124-133) |
| `Workflow` | Workflow.dfy | `Coherent`, the invariant that ties the alert and ticket registries together; how each step keeps it; `RaiseAll`, a batch of new alerts, the `k`-th saved NEW under the `k`-th fresh identifier (IoTMonitoringApp.java:112-113, 128-131) |
| `Monitoring` | IoTMonitoringApp.dfy | the `App` class: registries and menu operations, with prompts replaced by parameters |

## How the orchestrator is modelled

Every menu operation of `App` takes the operator's answers as parameters. It
returns a `Status`:
- `Done`;
- `NotFound`, when a picker finds nothing;
- `StatusMismatch`, when the alert picker's status guard refuses;
- `Rejected(e)`, when the operation throws `e`. The menu loop catches and
  reports it (IoTMonitoringApp.java:41-58), except in `closeTicket`, which
  catches the failure of `close()` itself (IoTMonitoringApp.java:170-178).

`App.Valid()` is the invariant every operation preserves:
- every registry entry is saved under its own id;
- devices hold sensors with distinct ids;
- every sensor a device holds is the object saved under its id in the global
  sensor registry;
- every registered id was drawn from the identifier source before its
  current counter value;
- the alert and ticket registries are `Coherent`:
  - a linked alert names a registered ticket that was opened from it, and is
    past NEW;
  - a resolved alert is linked;
  - a ticket names a registered, linked alert, and copies that alert's device
    and sensor;
  - a closed ticket has logged work, and its alert is resolved.

Each method that creates alerts is proved equal to a function of the state
before it ran:
- Ingest ends with `RaiseAll(old alerts, counter after the reading's own identifier, Evaluate(reading, type, thresholds))`.
- The batch scan ends with `RaiseAll(old alerts, counter, Scan(thresholds, table))`.
  Here `table` is `Table()`, the view the scan has of each device's sensors.

Lemmas in `Evaluation` and `Workflow` then state what these functions mean:
- exactly one alert per breaching matching threshold, carrying its severity;
- alerts that existed before are untouched;
- one new alert per candidate, so repeating the scan repeats its alerts;
- both paths decide by the same rule.

Alerts and tickets in the `App` registries are held as values (`AlertState`,
`TicketState`) and updated with the same step functions that specify the
`Alert` and `MaintenanceTicket` classes. Devices and sensors stay objects,
because the batch scan reads the sensors through the devices that hold them.

## Where the design intent and the code disagree

The model follows the code in each case.

- **Re-linking.** An alert is meant to be linked to the one ticket opened
  for it, with the link never changing afterwards. `linkTicket` is an
  unconditional write, of any id or of null (Alert.java:41-43).
  Linking leaves the alert ACKNOWLEDGED, so `createTicket` can run again on the
  same alert (IoTMonitoringApp.java:144-151): it opens a second ticket, and
  the alert is re-linked to it. `AfterLinkTicket` and
  `Monitoring.App.CreateTicket` model this. `LinkNeverCleared` proves that a
  link, once set, is never removed by calls that pass actual ids, as the one
  caller does (IoTMonitoringApp.java:149); `NullLinkClears` shows that
  `linkTicket(null)` would remove it.
- **Resolving from NEW.** `resolve()` has no status guard
  (Alert.java:45-48), so `AfterResolve` moves NEW straight to RESOLVED. Within
  the orchestrator, only `closeTicket` resolves, and `Coherent` proves that
  every resolved alert in the registry is linked to a ticket.
- **The ingest sensor.** The sensor picked for an ingest is looked up in the
  global sensor registry, not among the picked device's sensors
  (IoTMonitoringApp.java:201). `Monitoring.App.IngestReading` keeps this.
- **The null check in `closeTicket`.** The alert lookup's `if(a!=null)` at
  IoTMonitoringApp.java:174 always holds in reachable states.
  `Workflow.CloseKeepsCoherent` proves this from `Coherent`.
- **Required text that trims to nothing.** A required name is checked with
  `isBlank`, which follows `Character.isWhitespace`, and then stored trimmed
  with `trim`, which removes every code point up to U+0020. Control
  characters such as U+0001 are not white space but are trimmed, so a name
  made of them passes the check and is stored empty
  (`Technicians.ControlCharacterNameStoredEmpty`). The same holds for a
  device's name and a sensor's type.

## Model

| member | source | states |
|---|---|---|
| Text.Trim | Technician.java:12 | the result is empty iff every character of the input is at most U+0020, and otherwise starts and ends with a character above U+0020; it is no longer than the input |
| Text.TrimStartSuffix | Technician.java:12 | trimming the front keeps a suffix of the input and drops only characters up to U+0020 |
| Text.TrimEndPrefix | Technician.java:12 | trimming the end keeps a prefix of the input and drops only characters up to U+0020 |
| Text.NonBlankMayTrimToEmpty | Technician.java:11-12 | the `isBlank` rule and the `trim` rule differ: "\u0001" is not blank, yet trims to the empty string |
| Text.TrimIdempotent | Technician.java:12-13 | trimming a trimmed string changes nothing, so stored trimmed values are fixed points |
| Text.WhitespaceClasses | Technician.java:11 | `Character.isWhitespace` holds for tab to carriage return and the space, and fails for the other controls below tab, for the three non-breaking spaces and for every printable ASCII character |
| Text.BlankHasNoPrintable | Technician.java:11 | the empty string is blank, and a blank string contains no printable ASCII character |
| Text.Missing | Threshold.java:15-16 | the guard "null or blank": holds for null, and otherwise exactly when the string is blank |
| Text.TrimmedOrEmpty | Technician.java:13 | an optional text stored trimmed: "" for null, otherwise the trimmed string, and in both cases a fixed point of trimming |
| Text.EqualsIgnoreCase | IoTMonitoringApp.java:109 | `equalsIgnoreCase` restricted to ASCII letters: equal strings match, and matching strings have equal lengths |
| Text.Fold | IoTMonitoringApp.java:109 | the case folding behind `equalsIgnoreCase`: A-Z map to a-z, every other character is kept, and no upper-case ASCII letter remains |
| Text.EqualsIgnoreCaseSymmetric | IoTMonitoringApp.java:109 | the ingest filter's `t.equalsIgnoreCase(s)` and the scan's `s.equalsIgnoreCase(t)` give the same answer, and a type matches itself |
| Ids.Mint | Entity.java:9 | every identifier handed out is non-blank, and the `n`-th has length `n + 1` |
| Ids.MintInjective | Entity.java:9 | distinct counter values give distinct identifiers, in both directions |
| Ids.MintDrawn | Entity.java:9 | the identifier drawn at `n` is drawn before `n + 1` but not before `n` |
| Ids.DrawnBeforeKept | Entity.java:9 | an identifier drawn before `m` is still drawn before `m + 1` and differs from the one handed out at `m` |
| Common.SeverityOrMedium | Threshold.java:19 | a missing severity becomes MEDIUM; a given one is kept |
| Thresholds.NewThreshold | Threshold.java:14-20 | construction fails iff the device id or sensor type is missing or blank, or both bounds are given with min > max, with each check's own error in source order; on success the fields are the arguments, the threshold is well formed, and a missing severity becomes MEDIUM |
| Thresholds.IsBreached | Threshold.java:28-32 | breached iff (min present and value < min) or (max present and value > max), which is equivalent to the value lying outside the closed band of the bounds |
| Thresholds.BoundValueNeverBreaches | Threshold.java:29-30 | a value equal to a bound of a well-formed threshold never breaches |
| Thresholds.UnboundedNeverBreaches | Threshold.java:28-32 | a threshold without bounds never breaches |
| Thresholds.MaximumOnly | Threshold.java:30 | with only a maximum, the maximum itself is safe and every larger value breaches |
| Thresholds.MinimumOnly | Threshold.java:29 | with only a minimum, the minimum itself is safe and every smaller value breaches |
| Thresholds.SomeValueIsSafe | Threshold.java:17-32 | a well-formed threshold has a value that does not breach it |
| Thresholds.InvertedBoundsAlwaysBreach | Threshold.java:17 | the inverted bounds that construction rejects would make every value a breach |
| Readings.NewReading | Reading.java:11-19 | construction fails iff the device id is missing or blank, the sensor id is missing or blank, or the timestamp is missing, with each check's error in order; on success the fields equal the arguments |
| Technicians.NewTechnician | Technician.java:10-14 | construction fails iff the name is missing or blank; the stored name is the trimmed input, empty exactly when every character of the input is at most U+0020, and otherwise without surrounding spaces; the contact is "" for null, and otherwise trimmed |
| Technicians.ControlCharacterNameStoredEmpty | Technician.java:11-12 | the name "\u0001" passes the blank check and is stored as the empty string |
| Sensors.Sensor.Create | Sensor.java:11-15 | construction fails iff the type is missing or blank; otherwise a fresh sensor with the trimmed type (empty exactly when every character is at most U+0020), the trimmed unit ("" for null), and no last reading |
| Sensors.Sensor.Touch | Sensor.java:21 | `lastSeen` becomes the given time and the last reading is unchanged |
| Sensors.Sensor.SetLastReading | Sensor.java:24 | the last reading becomes `r`, and `lastSeen` becomes `r`'s timestamp |
| Devices.IndexOf | Device.java:32 | the position found holds a sensor with the id, and no earlier sensor has it; no position found means none has it |
| Devices.Put | Device.java:29 | a `put` on an insertion-ordered map: ids stay distinct; an existing id keeps its position and takes the new sensor; a new id goes last, after the old sequence unchanged; every other entry is unchanged |
| Devices.IndexOfUnique | Device.java:8 | with distinct ids, the lookup finds the sensor's own position |
| Devices.PutThenGet | Device.java:29-32 | after a put, looking up the sensor's id finds that very sensor |
| Devices.PutKeepsOthers | Device.java:29-32 | a put leaves the lookup of every other id exactly as it was |
| Devices.Device.Create | Device.java:10-12 | construction fails iff the name is missing or blank; otherwise a fresh device with the trimmed name (empty exactly when every character is at most U+0020), the trimmed location ("" for null), and no sensors |
| Devices.Device.SetName | Device.java:15-18 | a missing or blank name fails and keeps the old name; otherwise the trimmed name is stored, empty exactly when every character of the input is at most U+0020 |
| Devices.Device.SetLocation | Device.java:21-23 | the location becomes the trimmed input, or "" for null |
| Devices.Device.AddSensor | Device.java:27-30 | null fails and changes nothing; otherwise the sensors become `Put(old sensors, s)`, and `GetSensorById(s.id)` then returns `s` |
| Devices.Device.GetSensorById | Device.java:32 | a found sensor is held by the device and carries the id; not found means no held sensor carries it |
| Alerts.Raised | Alert.java:17-24 | a new alert is NEW, unacknowledged and unlinked; it carries the reading and the device and sensor ids of that reading; a missing severity becomes MEDIUM |
| Alerts.AfterAcknowledge | Alert.java:34-39 | succeeds iff the alert is NEW; it then becomes ACKNOWLEDGED and records who and when, keeping its origin and its link; otherwise it fails with the invalid-transition error |
| Alerts.AfterLinkTicket | Alert.java:41-43 | sets the link to the given id, or clears it for null, whatever the status, and changes nothing else (status included) |
| Alerts.AfterResolve | Alert.java:45-48 | the result is RESOLVED from any status; an already resolved alert is returned as it is |
| Alerts.ResolveIdempotent | Alert.java:45-48 | resolving twice is resolving once |
| Alerts.SecondAcknowledgeFails | Alert.java:34-35 | after a successful acknowledgement, another one fails |
| Alerts.AtMostOneAcknowledge | Alert.java:34-48 | over any sequence of operations at most one acknowledgement succeeds, and none unless the alert starts NEW |
| Alerts.StatusNeverRegresses | Alert.java:34-48 | over any sequence of operations the status never moves back, nothing returns to NEW, nothing leaves RESOLVED, and the creation fields stay fixed |
| Alerts.LinkNeverCleared | Alert.java:41-43 | once a ticket is linked, no sequence of operations whose links name actual ids removes the link |
| Alerts.NullLinkClears | Alert.java:41-43 | `linkTicket(null)` removes a link, so the condition of `LinkNeverCleared` is needed |
| Alerts.Alert.constructor | Alert.java:17-24 | the new object's fields are `Raised(...)` |
| Alerts.Alert.Acknowledge | Alert.java:34-39 | succeeds iff the status was NEW, with the new fields `AfterAcknowledge(old fields)`; a failure changes no field |
| Alerts.Alert.LinkTicket | Alert.java:41-43 | the new fields are `AfterLinkTicket(old fields)` |
| Alerts.Alert.Resolve | Alert.java:45-48 | the new fields are `AfterResolve(old fields)` |
| Tickets.Opened | MaintenanceTicket.java:16-23 | fails iff the alert is null; otherwise copies the alert's id, device and sensor; turns a null description into ""; and starts OPEN with an empty log and no technician |
| Tickets.Actor | MaintenanceTicket.java:34 | "system" without a technician, otherwise name + "(" + id + ")", which starts with the name, ends in ")" and so never reads as "system" |
| Tickets.AfterAddAction | MaintenanceTicket.java:32-36 | fails iff the text is missing or blank; otherwise the log grows by exactly one entry (time, actor, text) after the unchanged earlier entries, with no status guard and nothing else changing |
| Tickets.AfterAssign | MaintenanceTicket.java:30 | sets the technician's id, or clears it for null, and changes nothing else |
| Tickets.AfterClose | MaintenanceTicket.java:41-44 | succeeds iff the log is non-empty; it then sets CLOSED and changes nothing else; on failure it reports the closing rule |
| Tickets.CloseRepeatable | MaintenanceTicket.java:41-44 | closing a closed ticket succeeds again and changes nothing |
| Tickets.CloseNeedsOneAction | MaintenanceTicket.java:32-44 | a ticket with an empty log cannot close, and one logged action is enough |
| Tickets.TicketHistory | MaintenanceTicket.java:30-44 | over any sequence of operations the log only grows at its end, a closed ticket stays closed, the creation fields stay fixed, and no ticket is ever closed with an empty log |
| Tickets.MaintenanceTicket.Init | MaintenanceTicket.java:16-23 | the new object's fields are `Opened(...)` |
| Tickets.MaintenanceTicket.Create | MaintenanceTicket.java:16-23 | a null alert gives the alert-required error; otherwise a fresh ticket whose fields are `Opened(...)` |
| Tickets.MaintenanceTicket.AssignTechnician | MaintenanceTicket.java:30 | the new fields are `AfterAssign(old fields)` |
| Tickets.MaintenanceTicket.AddAction | MaintenanceTicket.java:32-36 | succeeds iff the text is present and not blank, with the new fields `AfterAddAction(old fields)`; a failure changes nothing |
| Tickets.MaintenanceTicket.Close | MaintenanceTicket.java:41-44 | succeeds iff the log was non-empty, with the new fields `AfterClose(old fields)`; a failure changes nothing |
| Evaluation.Selected | IoTMonitoringApp.java:108-111 | the thresholds the ingest filter keeps, in registry order; never more than are registered |
| Evaluation.SelectedCount | IoTMonitoringApp.java:108-111 | the ingest filter keeps a threshold (as often as it is registered) iff it belongs to the reading's device, its type matches ignoring case, and the value breaches it |
| Evaluation.Evaluate | IoTMonitoringApp.java:108-116 | one alert candidate per selected threshold, in registry order, each carrying the reading, the sensor's type and that threshold's severity |
| Evaluation.EvaluateSnoc | IoTMonitoringApp.java:108-116 | one more threshold adds at most one candidate, and only when it matches and the value breaches it |
| Evaluation.EvaluateExact | IoTMonitoringApp.java:108-116 | a candidate with severity `s` is raised iff some registered threshold of the device matches, fires and has severity `s` |
| Evaluation.EightyOneRaisesOneHigh | IoTMonitoringApp.java:108-116 | with one threshold of at most 80.0 at HIGH for "TEMPERATURE", a reading of 81.0 on a "temperature" sensor raises exactly one HIGH alert, and 80.0 raises none |
| Evaluation.ScanPair | IoTMonitoringApp.java:125-132 | one (threshold, sensor) pair raises at most one candidate, and only from a sensor with a last reading, carrying that reading, the sensor's type and the threshold's severity |
| Evaluation.ScanSensorsAtMostOnePerSensor | IoTMonitoringApp.java:124-133 | one device's scan raises at most one candidate per sensor |
| Evaluation.ScanThreshold | IoTMonitoringApp.java:121-123 | a threshold whose device is not registered raises nothing |
| Evaluation.Scan | IoTMonitoringApp.java:121-134 | when no threshold names a registered device, the scan raises nothing |
| Evaluation.ScanSensorsPrefix | IoTMonitoringApp.java:124-133 | scanning one more sensor appends exactly that pair's candidates |
| Evaluation.ScanPrefix | IoTMonitoringApp.java:121-134 | scanning one more threshold appends exactly that threshold's candidates |
| Evaluation.ScanPairUsesSameRule | IoTMonitoringApp.java:125-131 | a (threshold, sensor) pair of the scan raises iff the sensor has a last reading and the rule of the ingest check fires on it, and then raises exactly one candidate |
| Evaluation.ScanAgreesWithIngest | IoTMonitoringApp.java:119-135 | scanning a device whose one sensor holds reading `r` raises exactly the candidates the ingest check raised for `r` |
| Evaluation.ScanSound | IoTMonitoringApp.java:121-133 | every candidate of the scan comes from a registered threshold whose device is known and whose rule fires, carries its severity, and is backed by a sensor of that device holding the reading |
| Evaluation.ScanComplete | IoTMonitoringApp.java:121-133 | the converse of `ScanSound`: for every registered threshold whose device is known, every sensor of that device whose last reading fires the rule yields that reading's alert, at the threshold's severity |
| Evaluation.ScanSensorsComplete | IoTMonitoringApp.java:124-133 | every sensor of the device whose last reading fires the threshold's rule yields its alert in the device's scan |
| Evaluation.ScanSensorsSound | IoTMonitoringApp.java:124-133 | every candidate of one device's scan carries the threshold's severity, fires its rule, and comes from one of the device's sensors |
| Workflow.EmptyCoherent | IoTMonitoringApp.java:14-15 | empty registries are coherent |
| Workflow.RaiseKeepsCoherent | IoTMonitoringApp.java:112-113 | saving a new, NEW, unlinked alert keeps the registries coherent |
| Workflow.AcknowledgeKeepsCoherent | IoTMonitoringApp.java:137-141 | acknowledging a NEW alert keeps the registries coherent |
| Workflow.OpenKeepsCoherent | IoTMonitoringApp.java:144-151 | opening a ticket from an ACKNOWLEDGED alert under a fresh id, then linking the alert to it, keeps the registries coherent |
| Workflow.AddActionKeepsCoherent | IoTMonitoringApp.java:153-166 | logging an action keeps the registries coherent |
| Workflow.CloseKeepsCoherent | IoTMonitoringApp.java:168-179 | the alert a ticket names is registered; closing a ticket with logged work and then resolving that alert keeps the registries coherent |
| Workflow.OpenActCloseResolves | IoTMonitoringApp.java:144-179 | a ticket opened from an ACKNOWLEDGED alert and given one action can close; it names the alert, which links back to it; and the closing step leaves that alert RESOLVED |
| Workflow.RaiseAllKeepsOld | IoTMonitoringApp.java:108-116 | raising a batch leaves every alert that existed before it exactly as it was |
| Workflow.RaiseAllSaves | IoTMonitoringApp.java:128-131 | the `j`-th candidate of a batch is saved as a NEW alert under the `j`-th fresh identifier, with its reading, type and severity |
| Workflow.RaiseAllDrawn | Entity.java:9 | every key after a batch was drawn before the counter passed the batch |
| Workflow.RaiseAllAddsEach | IoTMonitoringApp.java:119-135 | a batch adds exactly one new alert per candidate, so nothing is de-duplicated and a repeated scan adds its alerts again |
| Workflow.RaiseAllKeepsCoherent | IoTMonitoringApp.java:119-135 | raising a batch under fresh identifiers keeps the registries coherent |
| Monitoring.App.constructor | IoTMonitoringApp.java:11-16 | all registries start empty, and the invariant holds |
| Monitoring.App.Draw | Entity.java:9 | hands out `Mint(counter)`, which is in no registry, and advances the counter |
| Monitoring.App.PutDevice | IoTMonitoringApp.java:73 | saves the device under its fresh id, keeping the invariant |
| Monitoring.App.AddDevice | IoTMonitoringApp.java:70-75 | rejected iff the name is blank, and then changes nothing; otherwise exactly one fresh device is added, with the trimmed name and location and no sensors |
| Monitoring.App.PutSensor | IoTMonitoringApp.java:81-82 | the sensor is appended to the device and saved in the global registry under its fresh id; of the device only the sensor list changes |
| Monitoring.App.RegisterSensor | IoTMonitoringApp.java:82 | saves the sensor in the global registry under its fresh id |
| Monitoring.App.AttachSensor | IoTMonitoringApp.java:82 | appends a registered sensor to the device's sensors, and changes no other field of the device |
| Monitoring.App.AddSensor | IoTMonitoringApp.java:77-84 | not found iff the device is unknown; rejected iff the type is blank; in both cases nothing changes; otherwise exactly one fresh sensor is saved and appended to the device, with the trimmed type and unit and no reading; the device's name and location never change |
| Monitoring.App.SetThreshold | IoTMonitoringApp.java:86-97 | not found iff the device is unknown; otherwise the status is the constructor's verdict; on success exactly the constructed threshold (severity defaulting to MEDIUM) is appended, and otherwise nothing changes |
| Monitoring.App.RaiseAlert | IoTMonitoringApp.java:112-113 | saves one NEW alert under the next fresh identifier |
| Monitoring.App.RaiseNext | IoTMonitoringApp.java:112-113 | raising one more candidate extends the batch's `RaiseAll` by it |
| Monitoring.App.Record | IoTMonitoringApp.java:104-105 | the new reading carries the picked device and sensor ids, the time and the value; it becomes the sensor's last reading, and `lastSeen` becomes the time |
| Monitoring.App.IngestReading | IoTMonitoringApp.java:99-117 | not found, changing nothing (the picked sensor included), iff the device is unknown, has no sensors, or the sensor id is not registered; otherwise the reading becomes the sensor's last reading, and the alerts become `RaiseAll(old alerts, Evaluate(reading, sensor type, thresholds))` |
| Monitoring.App.AcceptReading | IoTMonitoringApp.java:104-116 | records the reading, then raises exactly the candidates of `Evaluate` |
| Monitoring.App.CheckReading | IoTMonitoringApp.java:107-116 | the loop over the thresholds raises exactly `Evaluate(r, type, thresholds)`, in order, under consecutive fresh identifiers |
| Monitoring.App.GenerateAlerts | IoTMonitoringApp.java:119-135 | the alerts become `RaiseAll(old alerts, Scan(thresholds, view of the sensors before the scan))`, and the counter advances by the number raised |
| Monitoring.App.ScanThresholdStep | IoTMonitoringApp.java:121-123 | one threshold adds `ScanThreshold`'s candidates; a threshold whose device is unknown adds none |
| Monitoring.App.ScanDevice | IoTMonitoringApp.java:124-133 | the loop over one device's sensors raises exactly `ScanSensors(t, views)` |
| Monitoring.App.ScanStep | IoTMonitoringApp.java:125-132 | one pair raises exactly `ScanPair(t, view)` |
| Monitoring.App.AcknowledgeAlert | IoTMonitoringApp.java:137-142 | not found iff the id is unknown; a status mismatch iff the alert is not NEW; in both cases nothing changes; otherwise the alert becomes `AfterAcknowledge` of it |
| Monitoring.App.CreateTicket | IoTMonitoringApp.java:144-151 | not found iff the id is unknown; a status mismatch (the alert picker's guard at line 211) iff the alert is not ACKNOWLEDGED; in both cases nothing changes; otherwise exactly one OPEN ticket is opened from the alert under a fresh id, the alert is linked to it, the ticket names the alert, and the alert stays ACKNOWLEDGED |
| Monitoring.App.AddTechAction | IoTMonitoringApp.java:153-166 | not found iff the ticket is unknown; rejected iff the text is blank; in both cases nothing changes; otherwise the ticket becomes `AfterAddAction` of it |
| Monitoring.App.CloseTicket | IoTMonitoringApp.java:168-179 | not found iff the ticket is unknown; rejected iff its log is empty, and then neither ticket nor alert changes; otherwise the ticket is closed and the alert it names (always registered) is resolved |

## Left out

- Console I/O: the menu loop, the prompts, the printing and the pickers' listings (IoTMonitoringApp.java:24-60, 190-235). Picked ids and typed answers are parameters. A picker's empty-registry branch returns the same null as its not-found branch, so both are `NotFound`.
- `seed()` (IoTMonitoringApp.java:62-68), `viewDashboards`, DashboardPrinter.java and every `toString`: fixed data and presentation, with no decision logic.
- The technician registry and `pickTechnician`, which creates a technician when none exists: `AddTechAction` takes the technician, or its absence, as a parameter. `assignTechnician` is modelled on the ticket (`AfterAssign`, `AssignTechnician`); no menu operation calls it.
- UUID generation (Entity.java:9) is random. Identifiers come from a counter instead (`Ids.Mint`), so their uniqueness is proved rather than assumed.
- `LocalDateTime.now()` is a `Time` parameter. An action-log entry is a (time, actor, text) record rather than the concatenated string.
- `double` values are `real`: NaN, positive and negative infinity (which `Double.parseDouble("Infinity")` yields), signed zero and rounding are not modelled. This is sound because values are only compared.
- Alerts.AfterAcknowledge: takes a non-null `who`, so Java's `acknowledge(null)`, which would store a null `acknowledgedBy` (Alert.java:34-39), is not expressible; the one caller passes a trimmed console line (IoTMonitoringApp.java:139-140). The same holds for `Alerts.Alert.Acknowledge`.
- Input parsing (`Double.parseDouble`, `AlertSeverity.valueOf`): `SetThreshold` takes the parsed bounds and severity, with a missing severity meaning MEDIUM. A parse failure is not modelled.
- `trim` removes code points up to U+0020, as Java's does. `isBlank` follows `Character.isWhitespace` as of the Unicode separators listed in `Text.IsWhitespace`; a later Unicode version's additions are not modelled. `equalsIgnoreCase` folds only A-Z, so non-ASCII case pairs are not matched.
- The console trims every typed answer (IoTMonitoringApp.java:71-72, 79-80, 88, 139, 146, 155). The parameters of `AddDevice`, `AddSensor`, `SetThreshold`, `AcknowledgeAlert`, `CreateTicket` and `AddTechAction` stand for those already-trimmed answers and are stored as given.
- One `now` per operation stands for the several `LocalDateTime.now()` calls the source makes during it. An ingested reading's timestamp and the `createdAt` of the alerts it raises (Alert.java:22) are the same time, and every alert of one batch scan carries one time.
- The threshold registry is a LinkedHashMap keyed by fresh ids, so every `put` appends. It is modelled as a sequence in insertion order.
- The alert and ticket registries hold `AlertState`/`TicketState` values, not references to `Alert`/`MaintenanceTicket` objects. Each such object is referenced only from its registry, so no other holder can observe a change. The classes themselves are proved against the same step functions the App applies.
- `Table()` views every device's sensors as (type, last reading) pairs; identity, unit and `lastSeen` are not used by the scan.
