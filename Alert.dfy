/** The alert lifecycle: NEW, then ACKNOWLEDGED, then RESOLVED. The alert
    object mutates its status, acknowledgement and ticket link in place; its
    other fields are fixed at creation. */
module Alerts {
  import opened Common
  import opened Readings

  datatype AlertStatus = New | Acknowledged | Resolved

  /** Every field of an alert at one moment. */
  datatype AlertState = AlertState(
    id: Id,
    deviceId: Id,
    sensorId: Id,
    sensorType: string,
    reading: Reading,
    createdAt: Time,
    severity: Severity,
    status: AlertStatus,
    acknowledgedBy: Option<string>,
    acknowledgedAt: Option<Time>,
    linkedTicketId: Option<Id>)

  /** The fields an alert never changes after construction. */
  predicate SameOrigin(a: AlertState, b: AlertState)
  {
    && a.id == b.id && a.deviceId == b.deviceId && a.sensorId == b.sensorId
    && a.sensorType == b.sensorType && a.reading == b.reading
    && a.createdAt == b.createdAt && a.severity == b.severity
  }

  /** The constructor: a NEW alert for the device and sensor of the triggering
      reading, with MEDIUM standing in for a missing severity. */
  function Raised(id: Id, reading: Reading, sensorType: string, severity: Option<Severity>, createdAt: Time): (a: AlertState)
    ensures a.status == New
    ensures a.id == id && a.reading == reading
    ensures a.deviceId == reading.deviceId && a.sensorId == reading.sensorId
    ensures a.sensorType == sensorType && a.createdAt == createdAt
    ensures severity.None? ==> a.severity == Medium
    ensures severity.Some? ==> a.severity == severity.value
    ensures a.acknowledgedBy == None && a.acknowledgedAt == None && a.linkedTicketId == None
  {
    AlertState(id, reading.deviceId, reading.sensorId, sensorType, reading, createdAt,
               SeverityOrMedium(severity), New, None, None, None)
  }

  /** `acknowledge(who)`: only a NEW alert may be acknowledged; it records who
      and when. From any other status it throws and nothing changes. */
  function AfterAcknowledge(a: AlertState, who: string, at: Time): (r: Result<AlertState>)
    ensures r.Ok? <==> a.status == New
    ensures r.Err? ==> r.error == OnlyNewAlertsCanBeAcknowledged
    ensures r.Ok? ==> && r.value.status == Acknowledged
                      && r.value.acknowledgedBy == Some(who) && r.value.acknowledgedAt == Some(at)
                      && SameOrigin(a, r.value) && r.value.linkedTicketId == a.linkedTicketId
  {
    if a.status != New then Err(OnlyNewAlertsCanBeAcknowledged)
    else Ok(a.(status := Acknowledged, acknowledgedBy := Some(who), acknowledgedAt := Some(at)))
  }

  /** `linkTicket(id)`: overwrites the ticket link whatever the status, and
      touches nothing else; a null id (`None`) clears the link. */
  function AfterLinkTicket(a: AlertState, ticketId: Option<Id>): (r: AlertState)
    ensures r.linkedTicketId == ticketId
    ensures SameOrigin(a, r) && r.status == a.status
    ensures r.acknowledgedBy == a.acknowledgedBy && r.acknowledgedAt == a.acknowledgedAt
  {
    a.(linkedTicketId := ticketId)
  }

  /** `resolve()`: from any status the alert ends RESOLVED; an alert already
      resolved is returned as it is. */
  function AfterResolve(a: AlertState): (r: AlertState)
    ensures r.status == Resolved
    ensures a.status == Resolved ==> r == a
    ensures r == a.(status := Resolved)
  {
    if a.status == Resolved then a else a.(status := Resolved)
  }

  /** Resolving twice is resolving once. */
  lemma ResolveIdempotent(a: AlertState)
    ensures AfterResolve(AfterResolve(a)) == AfterResolve(a)
  {
  }

  /** A successful acknowledgement cannot be repeated. */
  lemma SecondAcknowledgeFails(a: AlertState, who1: string, at1: Time, who2: string, at2: Time)
    requires AfterAcknowledge(a, who1, at1).Ok?
    ensures AfterAcknowledge(AfterAcknowledge(a, who1, at1).value, who2, at2) == Err(OnlyNewAlertsCanBeAcknowledged)
  {
  }

  /** The operations an alert can undergo, for reasoning about sequences of them. */
  datatype AlertEvent = Acknowledge(who: string, at: Time) | LinkTicket(ticketId: Option<Id>) | Resolve

  /** One operation; a refused acknowledgement leaves the alert as it was. */
  function Step(a: AlertState, e: AlertEvent): (b: AlertState)
    ensures SameOrigin(a, b)
  {
    match e
    case Acknowledge(who, at) =>
      var r := AfterAcknowledge(a, who, at);
      if r.Ok? then r.value else a
    case LinkTicket(tid) => AfterLinkTicket(a, tid)
    case Resolve => AfterResolve(a)
  }

  /** The state after the operations `es`, first to last. */
  function Replay(a: AlertState, es: seq<AlertEvent>): (b: AlertState)
    decreases |es|
  {
    if es == [] then a else Replay(Step(a, es[0]), es[1..])
  }

  /** How many of the acknowledgements in `es` succeed. */
  function AcceptedAcks(a: AlertState, es: seq<AlertEvent>): (n: nat)
    ensures n <= |es|
    decreases |es|
  {
    if es == [] then 0
    else
      var ok := if es[0].Acknowledge? && AfterAcknowledge(a, es[0].who, es[0].at).Ok? then 1 else 0;
      ok + AcceptedAcks(Step(a, es[0]), es[1..])
  }

  /** Position of a status along the lifecycle. */
  function Rank(s: AlertStatus): (r: nat)
    ensures r <= 2
    ensures r == 0 <==> s == New
    ensures r == 2 <==> s == Resolved
  {
    match s
    case New => 0
    case Acknowledged => 1
    case Resolved => 2
  }

  /** Whatever happens to an alert, at most one acknowledgement ever
      succeeds, and none unless the alert starts NEW. */
  lemma {:induction false} AtMostOneAcknowledge(a: AlertState, es: seq<AlertEvent>)
    ensures AcceptedAcks(a, es) <= (if a.status == New then 1 else 0)
    decreases |es|
  {
    if es != [] {
      var b := Step(a, es[0]);
      AtMostOneAcknowledge(b, es[1..]);
      if a.status == New && b.status != New {
        assert AcceptedAcks(b, es[1..]) == 0;
      }
    }
  }

  /** The status never moves back along NEW, ACKNOWLEDGED, RESOLVED: nothing
      returns an alert to NEW and nothing leaves RESOLVED. The fields fixed at
      construction stay fixed. */
  lemma {:induction false} StatusNeverRegresses(a: AlertState, es: seq<AlertEvent>)
    ensures Rank(Replay(a, es).status) >= Rank(a.status)
    ensures a.status != New ==> Replay(a, es).status != New
    ensures a.status == Resolved ==> Replay(a, es).status == Resolved
    ensures SameOrigin(a, Replay(a, es))
    decreases |es|
  {
    if es != [] {
      StatusNeverRegresses(Step(a, es[0]), es[1..]);
    }
  }

  /** Once a ticket is linked, only `linkTicket(null)` removes the link: over
      operations that link to actual ids (as every caller of `linkTicket`
      does) the alert stays linked, although a later link may replace it. */
  lemma {:induction false} LinkNeverCleared(a: AlertState, es: seq<AlertEvent>)
    requires a.linkedTicketId.Some?
    requires forall i | 0 <= i < |es| && es[i].LinkTicket? :: es[i].ticketId.Some?
    ensures Replay(a, es).linkedTicketId.Some?
    decreases |es|
  {
    if es != [] {
      assert forall i | 0 <= i < |es[1..]| && es[1..][i].LinkTicket? :: es[1..][i].ticketId.Some? by {
        forall i | 0 <= i < |es[1..]| && es[1..][i].LinkTicket?
          ensures es[1..][i].ticketId.Some?
        {
          assert es[1..][i] == es[i + 1];
        }
      }
      LinkNeverCleared(Step(a, es[0]), es[1..]);
    }
  }

  /** `linkTicket(null)` is the one operation that clears a link, which is
      why `LinkNeverCleared` rules it out. */
  lemma NullLinkClears(a: AlertState)
    ensures Replay(a, [LinkTicket(None)]).linkedTicketId.None?
  {
    assert Replay(a, [LinkTicket(None)]) == Replay(AfterLinkTicket(a, None), []);
  }

  class Alert {
    const id: Id
    const deviceId: Id
    const sensorId: Id
    const sensorType: string
    const reading: Reading
    const createdAt: Time
    const severity: Severity
    var status: AlertStatus
    var acknowledgedBy: Option<string>
    var acknowledgedAt: Option<Time>
    var linkedTicketId: Option<Id>

    /** The object's fields as a value. */
    function State(): AlertState
      reads this
    {
      AlertState(id, deviceId, sensorId, sensorType, reading, createdAt, severity,
                 status, acknowledgedBy, acknowledgedAt, linkedTicketId)
    }

    /** `new Alert(reading, sensorType, severity)`, created at `createdAt`. */
    constructor (id: Id, reading: Reading, sensorType: string, severity: Option<Severity>, createdAt: Time)
      ensures State() == Raised(id, reading, sensorType, severity, createdAt)
    {
      this.id := id;
      this.reading := reading;
      this.deviceId := reading.deviceId;
      this.sensorId := reading.sensorId;
      this.sensorType := sensorType;
      this.createdAt := createdAt;
      this.severity := SeverityOrMedium(severity);
      status := New;
      acknowledgedBy := None;
      acknowledgedAt := None;
      linkedTicketId := None;
    }

    method Acknowledge(who: string, at: Time) returns (r: Outcome)
      modifies this
      ensures r.Pass? <==> old(status) == New
      ensures r.Pass? ==> State() == AfterAcknowledge(old(State()), who, at).value
      ensures r.Fail? ==> r == Fail(OnlyNewAlertsCanBeAcknowledged) && State() == old(State())
    {
      if status != New {
        return Fail(OnlyNewAlertsCanBeAcknowledged);
      }
      status := Acknowledged;
      acknowledgedBy := Some(who);
      acknowledgedAt := Some(at);
      return Pass;
    }

    method LinkTicket(ticketId: Option<Id>)
      modifies this
      ensures State() == AfterLinkTicket(old(State()), ticketId)
    {
      linkedTicketId := ticketId;
    }

    method Resolve()
      modifies this
      ensures State() == AfterResolve(old(State()))
    {
      if status == Resolved {
        return;
      }
      status := Resolved;
    }
  }
}
