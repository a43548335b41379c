/** The rules that tie the alert and ticket registries together, stated on
    snapshots of the two registries, and how each workflow step keeps them. */
module Workflow {
  import opened Common
  import opened Text
  import opened Ids
  import opened Readings
  import opened Alerts
  import opened Tickets
  import opened Evaluation

  type AlertTable = map<Id, AlertState>
  type TicketTable = map<Id, TicketState>

  /** What the ticket registry demands of alert `aid`, when registered: it is
      saved under its own id; if it is linked, the link names a registered
      ticket opened from it and the alert is past NEW; if it is resolved, it
      is linked. */
  ghost predicate AlertOk(alerts: AlertTable, tickets: TicketTable, aid: Id)
  {
    aid in alerts ==>
      && alerts[aid].id == aid
      && (alerts[aid].linkedTicketId.Some? ==>
            && alerts[aid].linkedTicketId.value in tickets
            && tickets[alerts[aid].linkedTicketId.value].alertId == aid
            && alerts[aid].status != New)
      && (alerts[aid].status == Resolved ==> alerts[aid].linkedTicketId.Some?)
  }

  /** What the alert registry demands of ticket `tid`, when registered: it is
      saved under its own id; it names a registered alert whose device and
      sensor it copies and which carries a ticket link; if it is closed, it
      has logged work and its alert is resolved. */
  ghost predicate TicketOk(alerts: AlertTable, tickets: TicketTable, tid: Id)
  {
    tid in tickets ==>
      && tickets[tid].id == tid
      && tickets[tid].alertId in alerts
      && alerts[tickets[tid].alertId].deviceId == tickets[tid].deviceId
      && alerts[tickets[tid].alertId].sensorId == tickets[tid].sensorId
      && alerts[tickets[tid].alertId].linkedTicketId.Some?
      && (tickets[tid].status == Closed ==>
            tickets[tid].actionLogs != [] && alerts[tickets[tid].alertId].status == Resolved)
  }

  /** The two registries agree with each other. */
  ghost predicate Coherent(alerts: AlertTable, tickets: TicketTable)
  {
    && (forall aid :: AlertOk(alerts, tickets, aid))
    && (forall tid :: TicketOk(alerts, tickets, tid))
  }

  lemma EmptyCoherent()
    ensures Coherent(map[], map[])
  {
    forall aid ensures AlertOk(map[], map[], aid) {}
    forall tid ensures TicketOk(map[], map[], tid) {}
  }

  /** Saving a freshly raised alert keeps the registries coherent. */
  lemma RaiseKeepsCoherent(alerts: AlertTable, tickets: TicketTable, a: AlertState)
    requires Coherent(alerts, tickets)
    requires a.id !in alerts && a.status == New && a.linkedTicketId.None?
    ensures Coherent(alerts[a.id := a], tickets)
  {
    var alerts' := alerts[a.id := a];
    forall aid
      ensures AlertOk(alerts', tickets, aid)
    {
      assert AlertOk(alerts, tickets, aid);
    }
    forall tid
      ensures TicketOk(alerts', tickets, tid)
    {
      assert TicketOk(alerts, tickets, tid);
    }
  }

  /** Acknowledging a NEW alert keeps the registries coherent: a NEW alert
      has no ticket, so no ticket sees the change. */
  lemma AcknowledgeKeepsCoherent(alerts: AlertTable, tickets: TicketTable, aid: Id, who: string, at: Time)
    requires Coherent(alerts, tickets)
    requires aid in alerts && alerts[aid].status == New
    ensures Coherent(alerts[aid := AfterAcknowledge(alerts[aid], who, at).value], tickets)
  {
    var alerts' := alerts[aid := AfterAcknowledge(alerts[aid], who, at).value];
    assert AlertOk(alerts, tickets, aid);
    forall x
      ensures AlertOk(alerts', tickets, x)
    {
      assert AlertOk(alerts, tickets, x);
    }
    forall tid
      ensures TicketOk(alerts', tickets, tid)
    {
      assert TicketOk(alerts, tickets, tid);
    }
  }

  /** Opening a ticket from an ACKNOWLEDGED alert under a fresh id and
      linking the alert to it keeps the registries coherent. */
  lemma OpenKeepsCoherent(alerts: AlertTable, tickets: TicketTable, aid: Id, tid: Id, description: string, now: Time)
    requires Coherent(alerts, tickets)
    requires aid in alerts && alerts[aid].status == Acknowledged && tid !in tickets
    ensures Coherent(alerts[aid := AfterLinkTicket(alerts[aid], Some(tid))],
                     tickets[tid := Opened(tid, Some(alerts[aid]), Some(description), now).value])
  {
    var alerts' := alerts[aid := AfterLinkTicket(alerts[aid], Some(tid))];
    var tickets' := tickets[tid := Opened(tid, Some(alerts[aid]), Some(description), now).value];
    assert AlertOk(alerts, tickets, aid);
    forall x
      ensures AlertOk(alerts', tickets', x)
    {
      assert AlertOk(alerts, tickets, x);
    }
    forall y
      ensures TicketOk(alerts', tickets', y)
    {
      assert TicketOk(alerts, tickets, y);
    }
  }

  /** Logging an action keeps the registries coherent. */
  lemma AddActionKeepsCoherent(alerts: AlertTable, tickets: TicketTable, tid: Id, text: string, tech: Option<Technicians.Technician>, at: Time)
    requires Coherent(alerts, tickets)
    requires tid in tickets && AfterAddAction(tickets[tid], Some(text), tech, at).Ok?
    ensures Coherent(alerts, tickets[tid := AfterAddAction(tickets[tid], Some(text), tech, at).value])
  {
    var tickets' := tickets[tid := AfterAddAction(tickets[tid], Some(text), tech, at).value];
    forall x
      ensures AlertOk(alerts, tickets', x)
    {
      assert AlertOk(alerts, tickets, x);
    }
    forall y
      ensures TicketOk(alerts, tickets', y)
    {
      assert TicketOk(alerts, tickets, y);
    }
  }

  /** Closing a ticket with logged work and then resolving its alert keeps
      the registries coherent. */
  lemma CloseKeepsCoherent(alerts: AlertTable, tickets: TicketTable, tid: Id)
    requires Coherent(alerts, tickets)
    requires tid in tickets && tickets[tid].actionLogs != []
    ensures tickets[tid].alertId in alerts
    ensures Coherent(alerts[tickets[tid].alertId := AfterResolve(alerts[tickets[tid].alertId])],
                     tickets[tid := AfterClose(tickets[tid]).value])
  {
    assert TicketOk(alerts, tickets, tid);
    var aid := tickets[tid].alertId;
    var alerts' := alerts[aid := AfterResolve(alerts[aid])];
    var tickets' := tickets[tid := AfterClose(tickets[tid]).value];
    forall x
      ensures AlertOk(alerts', tickets', x)
    {
      assert AlertOk(alerts, tickets, x);
    }
    forall y
      ensures TicketOk(alerts', tickets', y)
    {
      assert TicketOk(alerts, tickets, y);
    }
  }

  /** The ticket round trip: a ticket opened from an ACKNOWLEDGED alert, given
      one action, can close, and the closing step then resolves that alert. */
  lemma OpenActCloseResolves(alerts: AlertTable, tickets: TicketTable, aid: Id, tid: Id, description: string,
                             now: Time, text: string, tech: Option<Technicians.Technician>, at: Time)
    requires aid in alerts && alerts[aid].id == aid && alerts[aid].status == Acknowledged && !IsBlank(text)
    ensures var alerts1 := alerts[aid := AfterLinkTicket(alerts[aid], Some(tid))];
            var t0 := Opened(tid, Some(alerts[aid]), Some(description), now).value;
            var t1 := AfterAddAction(t0, Some(text), tech, at).value;
            && AfterClose(t1).Ok? && AfterClose(t1).value.status == Closed
            && t1.alertId == aid && alerts1[t1.alertId].linkedTicketId == Some(tid)
            && AfterResolve(alerts1[t1.alertId]).status == Resolved
  {
  }

  /** The alerts a batch of candidates adds: the `k`-th is saved under
      `Mint(s0 + k)`, NEW, raised at `now` for its reading, type and
      severity. */
  function RaiseAll(alerts: AlertTable, s0: nat, cs: seq<Candidate>, now: Time): (r: AlertTable)
    decreases |cs|
  {
    if cs == [] then alerts
    else
      var k := |cs| - 1;
      var c := cs[k];
      RaiseAll(alerts, s0, cs[..k], now)[Mint(s0 + k) := Raised(Mint(s0 + k), c.reading, c.sensorType, Some(c.severity), now)]
  }

  /** `RaiseAll` leaves every entry saved below the counter as it was. */
  lemma {:induction false} RaiseAllKeepsOld(alerts: AlertTable, s0: nat, cs: seq<Candidate>, now: Time, id: Id)
    requires id in alerts && DrawnBefore(id, s0)
    ensures id in RaiseAll(alerts, s0, cs, now) && RaiseAll(alerts, s0, cs, now)[id] == alerts[id]
    decreases |cs|
  {
    if cs != [] {
      var k := |cs| - 1;
      RaiseAllKeepsOld(alerts, s0, cs[..k], now, id);
      assert id != Mint(s0 + k);
    }
  }

  /** `RaiseAll` saves the `j`-th candidate's alert under `Mint(s0 + j)`. */
  lemma {:induction false} RaiseAllSaves(alerts: AlertTable, s0: nat, cs: seq<Candidate>, now: Time, j: nat)
    requires j < |cs|
    ensures Mint(s0 + j) in RaiseAll(alerts, s0, cs, now)
    ensures RaiseAll(alerts, s0, cs, now)[Mint(s0 + j)] == Raised(Mint(s0 + j), cs[j].reading, cs[j].sensorType, Some(cs[j].severity), now)
    decreases |cs|
  {
    var k := |cs| - 1;
    if j < k {
      RaiseAllSaves(alerts, s0, cs[..k], now, j);
      MintInjective(s0 + j, s0 + k);
      assert cs[..k][j] == cs[j];
    }
  }

  /** Every key `RaiseAll` holds was drawn before the counter passed the
      last candidate. */
  lemma {:induction false} RaiseAllDrawn(alerts: AlertTable, s0: nat, cs: seq<Candidate>, now: Time)
    requires forall id | id in alerts :: DrawnBefore(id, s0)
    ensures forall id | id in RaiseAll(alerts, s0, cs, now) :: DrawnBefore(id, s0 + |cs|)
    decreases |cs|
  {
    if cs != [] {
      var k := |cs| - 1;
      RaiseAllDrawn(alerts, s0, cs[..k], now);
      MintDrawn(s0 + k);
    }
  }

  /** Every candidate of a batch adds one alert of its own: nothing is
      merged or suppressed, so a batch raised twice adds its alerts twice. */
  lemma {:induction false} RaiseAllAddsEach(alerts: AlertTable, s0: nat, cs: seq<Candidate>, now: Time)
    requires forall id | id in alerts :: DrawnBefore(id, s0)
    ensures |RaiseAll(alerts, s0, cs, now)| == |alerts| + |cs|
    decreases |cs|
  {
    if cs != [] {
      var k := |cs| - 1;
      RaiseAllAddsEach(alerts, s0, cs[..k], now);
      RaiseAllDrawn(alerts, s0, cs[..k], now);
      MintDrawn(s0 + k);
      assert Mint(s0 + k) !in RaiseAll(alerts, s0, cs[..k], now);
    }
  }

  /** Raising a batch of alerts under fresh ids keeps the registries
      coherent. */
  lemma {:induction false} RaiseAllKeepsCoherent(alerts: AlertTable, tickets: TicketTable, s0: nat, cs: seq<Candidate>, now: Time)
    requires Coherent(alerts, tickets)
    requires forall id | id in alerts :: DrawnBefore(id, s0)
    ensures Coherent(RaiseAll(alerts, s0, cs, now), tickets)
    decreases |cs|
  {
    if cs != [] {
      var k := |cs| - 1;
      RaiseAllKeepsCoherent(alerts, tickets, s0, cs[..k], now);
      RaiseAllDrawn(alerts, s0, cs[..k], now);
      var before := RaiseAll(alerts, s0, cs[..k], now);
      MintDrawn(s0 + k);
      var c := cs[k];
      RaiseKeepsCoherent(before, tickets, Raised(Mint(s0 + k), c.reading, c.sensorType, Some(c.severity), now));
    }
  }
}
