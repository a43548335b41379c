/** The maintenance ticket lifecycle: OPEN, then CLOSED, with an
    append-only log of technician actions that must be non-empty before the
    ticket may close. */
module Tickets {
  import opened Common
  import opened Text
  import opened Technicians
  import opened Alerts

  datatype TicketStatus = Open | Closed

  /** One action-log line: when, by whom, what. */
  datatype LogEntry = LogEntry(at: Time, actor: string, text: string)

  /** Every field of a ticket at one moment. */
  datatype TicketState = TicketState(
    id: Id,
    alertId: Id,
    deviceId: Id,
    sensorId: Id,
    description: string,
    createdAt: Time,
    status: TicketStatus,
    actionLogs: seq<LogEntry>,
    assignedTechId: Option<Id>)

  /** The fields a ticket never changes after construction. */
  predicate SameOrigin(t: TicketState, u: TicketState)
  {
    && t.id == u.id && t.alertId == u.alertId && t.deviceId == u.deviceId
    && t.sensorId == u.sensorId && t.description == u.description && t.createdAt == u.createdAt
  }

  /** The constructor: an alert is required; its id, device and sensor are
      copied once; a null description becomes empty; the ticket starts OPEN
      with an empty log and nobody assigned. */
  function Opened(id: Id, alert: Option<AlertState>, description: Option<string>, createdAt: Time): (r: Result<TicketState>)
    ensures r.Err? <==> alert.None?
    ensures r.Err? ==> r.error == AlertRequired
    ensures r.Ok? ==> && r.value.id == id && r.value.alertId == alert.value.id
                      && r.value.deviceId == alert.value.deviceId && r.value.sensorId == alert.value.sensorId
                      && r.value.createdAt == createdAt
    ensures r.Ok? && description.None? ==> r.value.description == ""
    ensures r.Ok? && description.Some? ==> r.value.description == description.value
    ensures r.Ok? ==> r.value.status == Open && r.value.actionLogs == [] && r.value.assignedTechId == None
  {
    if alert.None? then Err(AlertRequired)
    else Ok(TicketState(id, alert.value.id, alert.value.deviceId, alert.value.sensorId,
                        if description.None? then "" else description.value,
                        createdAt, Open, [], None))
  }

  /** Who an action is attributed to: "system" without a technician,
      otherwise the technician's name followed by the id in parentheses. */
  function Actor(tech: Option<Technician>): (who: string)
    ensures tech.None? ==> who == "system"
    ensures tech.Some? ==> who == tech.value.name + "(" + tech.value.id + ")"
    ensures tech.Some? ==> who != "system" && who[..|tech.value.name|] == tech.value.name && who[|who| - 1] == ')'
  {
    if tech.None? then "system"
    else
      var who := tech.value.name + "(" + tech.value.id + ")";
      assert who[|who| - 1] == ')' != "system"[5];
      who
  }

  /** `addAction(text, tech)`: blank text is refused and changes nothing;
      otherwise exactly one entry is appended, whatever the status. */
  function AfterAddAction(t: TicketState, text: Option<string>, tech: Option<Technician>, at: Time): (r: Result<TicketState>)
    ensures r.Err? <==> Missing(text)
    ensures r.Err? ==> r.error == ActionRequired
    ensures r.Ok? ==> && |r.value.actionLogs| == |t.actionLogs| + 1
                      && r.value.actionLogs[..|t.actionLogs|] == t.actionLogs
                      && r.value.actionLogs[|t.actionLogs|] == LogEntry(at, Actor(tech), text.value)
    ensures r.Ok? ==> SameOrigin(t, r.value) && r.value.status == t.status && r.value.assignedTechId == t.assignedTechId
  {
    if Missing(text) then Err(ActionRequired)
    else Ok(t.(actionLogs := t.actionLogs + [LogEntry(at, Actor(tech), text.value)]))
  }

  /** `assignTechnician(tech)`: sets the assignment, or clears it for null. */
  function AfterAssign(t: TicketState, tech: Option<Technician>): (r: TicketState)
    ensures tech.None? ==> r.assignedTechId == None
    ensures tech.Some? ==> r.assignedTechId == Some(tech.value.id)
    ensures SameOrigin(t, r) && r.status == t.status && r.actionLogs == t.actionLogs
  {
    t.(assignedTechId := if tech.None? then None else Some(tech.value.id))
  }

  /** `close()`: refused while the log is empty; otherwise the ticket is CLOSED,
      also when it already was. */
  function AfterClose(t: TicketState): (r: Result<TicketState>)
    ensures r.Ok? <==> t.actionLogs != []
    ensures r.Err? ==> r.error == ActionNeededToClose
    ensures r.Ok? ==> r.value.status == Closed && r.value.actionLogs == t.actionLogs
    ensures r.Ok? ==> SameOrigin(t, r.value) && r.value.assignedTechId == t.assignedTechId
  {
    if t.actionLogs == [] then Err(ActionNeededToClose) else Ok(t.(status := Closed))
  }

  /** Closing a closed ticket succeeds again and changes nothing. */
  lemma CloseRepeatable(t: TicketState)
    requires AfterClose(t).Ok?
    ensures AfterClose(AfterClose(t).value) == AfterClose(t)
  {
  }

  /** Fresh tickets cannot close, and one recorded action is enough. */
  lemma CloseNeedsOneAction(t: TicketState, text: string, tech: Option<Technician>, at: Time)
    requires t.actionLogs == [] && !IsBlank(text)
    ensures AfterClose(t) == Err(ActionNeededToClose)
    ensures AfterClose(AfterAddAction(t, Some(text), tech, at).value).Ok?
  {
  }

  /** The operations a ticket can undergo. */
  datatype TicketEvent =
    | AddAction(text: Option<string>, tech: Option<Technician>, at: Time)
    | Assign(assignee: Option<Technician>)
    | Close

  /** One operation; a refused one leaves the ticket as it was. */
  function Step(t: TicketState, e: TicketEvent): (u: TicketState)
    ensures SameOrigin(t, u)
    ensures |t.actionLogs| <= |u.actionLogs|
  {
    match e
    case AddAction(text, tech, at) =>
      var r := AfterAddAction(t, text, tech, at);
      if r.Ok? then r.value else t
    case Assign(tech) => AfterAssign(t, tech)
    case Close =>
      var r := AfterClose(t);
      if r.Ok? then r.value else t
  }

  function Replay(t: TicketState, es: seq<TicketEvent>): (u: TicketState)
    decreases |es|
  {
    if es == [] then t else Replay(Step(t, es[0]), es[1..])
  }

  /** A closed ticket has at least one logged action. */
  ghost predicate Consistent(t: TicketState)
  {
    t.status == Closed ==> t.actionLogs != []
  }

  /** Over any sequence of operations: the log only grows at its end, a
      ticket that was closed stays closed, the fields copied at creation stay
      fixed, and a ticket never ends closed with an empty log. */
  lemma {:induction false} TicketHistory(t: TicketState, es: seq<TicketEvent>)
    requires Consistent(t)
    ensures var u := Replay(t, es);
            && |t.actionLogs| <= |u.actionLogs|
            && u.actionLogs[..|t.actionLogs|] == t.actionLogs
            && (t.status == Closed ==> u.status == Closed)
            && SameOrigin(t, u)
            && Consistent(u)
    decreases |es|
  {
    if es != [] {
      var s := Step(t, es[0]);
      assert |t.actionLogs| <= |s.actionLogs| && s.actionLogs[..|t.actionLogs|] == t.actionLogs;
      TicketHistory(s, es[1..]);
      var u := Replay(t, es);
      assert u.actionLogs[..|s.actionLogs|][..|t.actionLogs|] == u.actionLogs[..|t.actionLogs|];
    }
  }

  class MaintenanceTicket {
    const id: Id
    const alertId: Id
    const deviceId: Id
    const sensorId: Id
    const description: string
    const createdAt: Time
    var status: TicketStatus
    var actionLogs: seq<LogEntry>
    var assignedTechId: Option<Id>

    function State(): TicketState
      reads this
    {
      TicketState(id, alertId, deviceId, sensorId, description, createdAt, status, actionLogs, assignedTechId)
    }

    /** The field assignments of the constructor for a given alert. */
    constructor Init(id: Id, alert: AlertState, description: Option<string>, createdAt: Time)
      ensures State() == Opened(id, Some(alert), description, createdAt).value
    {
      this.id := id;
      this.alertId := alert.id;
      this.deviceId := alert.deviceId;
      this.sensorId := alert.sensorId;
      this.description := if description.None? then "" else description.value;
      this.createdAt := createdAt;
      status := Open;
      actionLogs := [];
      assignedTechId := None;
    }

    /** `new MaintenanceTicket(alert, description)`: throws on a null alert. */
    static method Create(id: Id, alert: Alert?, description: Option<string>, createdAt: Time) returns (r: Result<MaintenanceTicket>)
      ensures alert == null ==> r == Err(AlertRequired)
      ensures alert != null ==> r.Ok? && fresh(r.value)
                                && r.value.State() == Opened(id, Some(alert.State()), description, createdAt).value
    {
      if alert == null {
        return Err(AlertRequired);
      }
      var t := new MaintenanceTicket.Init(id, alert.State(), description, createdAt);
      return Ok(t);
    }

    method AssignTechnician(tech: Option<Technician>)
      modifies this
      ensures State() == AfterAssign(old(State()), tech)
    {
      assignedTechId := if tech.None? then None else Some(tech.value.id);
    }

    method AddAction(text: Option<string>, tech: Option<Technician>, at: Time) returns (r: Outcome)
      modifies this
      ensures r.Pass? <==> !Missing(text)
      ensures r.Pass? ==> State() == AfterAddAction(old(State()), text, tech, at).value
      ensures r.Fail? ==> r == Fail(ActionRequired) && State() == old(State())
    {
      if Missing(text) {
        return Fail(ActionRequired);
      }
      actionLogs := actionLogs + [LogEntry(at, Actor(tech), text.value)];
      return Pass;
    }

    method Close() returns (r: Outcome)
      modifies this
      ensures r.Pass? <==> old(actionLogs) != []
      ensures r.Pass? ==> State() == AfterClose(old(State())).value
      ensures r.Fail? ==> r == Fail(ActionNeededToClose) && State() == old(State())
    {
      if actionLogs == [] {
        return Fail(ActionNeededToClose);
      }
      status := Closed;
      return Pass;
    }
  }
}
