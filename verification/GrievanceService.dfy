/** The ticket table, its operations as guarded updates, and the SLA escalation loop. */
module GrievanceService {
  import opened Options
  import opened Sums
  import opened Grievance

  datatype Outcome = Done | NotFound | Refused | ChangedState

  function IsOpenIn(tickets: map<nat, Ticket>): nat -> int
  {
    id => if id in tickets && tickets[id].status in OPEN_STATUSES then 1 else 0
  }

  /** What an automatic escalation makes of a ticket. */
  function AtOnce(now: int): Ticket -> Ticket
  {
    (t: Ticket) => Transact(t, t, Escalate(false), now)
  }

  /** The listed tickets are as f leaves them, the others as they were. */
  ghost predicate ChangedFor(before: map<nat, Ticket>, tickets: map<nat, Ticket>, ids: seq<nat>, f: Ticket -> Ticket)
  {
    && tickets.Keys == before.Keys
    && forall id | id in tickets :: tickets[id] == if id in ids then f(before[id]) else before[id]
  }

  lemma {:induction false} ChangedOneMore(before: map<nat, Ticket>, tickets: map<nat, Ticket>, next: map<nat, Ticket>,
                                          ids: seq<nat>, id: nat, f: Ticket -> Ticket)
    requires ChangedFor(before, tickets, ids, f) && id in tickets && id !in ids
    requires next == tickets[id := f(tickets[id])]
    ensures tickets[id] == before[id]
    ensures ChangedFor(before, next, ids + [id], f)
  {
  }

  class TicketTable {
    var tickets: map<nat, Ticket>

    constructor ()
      ensures tickets == map[]
    {
      tickets := map[];
    }

    method FileGrievance(id: nat, user: string, category: string, filedAt: int, now: int)
      requires id !in tickets
      modifies this
      ensures tickets == old(tickets)[id := Filed(user, category, filedAt, now)]
      ensures var t := tickets[id];
              && t.raisedBy == user && t.category == category && t.status.Open?
              && t.messages == [Message(Customer, false)] && t.assignedTo.None? && t.firstResponseAt.None?
              && t.priority == (if category == "DATA_PRIVACY" then High else Normal)
              && t.slaDueAt - filedAt == if t.priority.High? then 48 * 3_600_000 else 72 * 3_600_000
    {
      var priority := if category == "DATA_PRIVACY" then High else Normal;
      var slaDueAt := filedAt + SlaHours(priority) * HOUR_MS;
      var g := Ticket(user, category, filedAt, now, Open, priority, slaDueAt, FromFiling,
                      None, None, None, None, None, None,
                      [], [Open]);
      assert [] + [Message(Customer, false)] == [Message(Customer, false)];
      tickets := tickets[id := g.Say(Customer, false)];
    }

    /** requireGrievance and the checks that precede every transaction. */
    method Check(id: nat, r: Request, now: int) returns (reply: Outcome, snap: Option<Ticket>)
      ensures snap == if id in tickets && Admits(tickets[id], r, now) then Some(tickets[id]) else None
      ensures snap.Some? ==>
                var t := tickets[id];
                match r
                case Reply(user, body) => t.raisedBy == user && 0 < |body| <= 4000 && t.status != Closed
                case Assign(_, _) => t.status != Closed
                case Respond(_) => t.status != Closed
                case Resolve(_) => t.status in {Open, InProgress, Escalated}
                case Escalate(byOfficer) => t.status in {Open, InProgress} && (byOfficer || t.slaDueAt < now)
                case Close => t.status == Resolved
      ensures reply.Refused? ==> id in tickets
      ensures reply.Refused? ==>
                var t := tickets[id];
                match r
                case Reply(user, body) => t.raisedBy != user || |body| == 0 || |body| > 4000 || t.status == Closed
                case Assign(_, _) => t.status == Closed
                case Respond(_) => t.status == Closed
                case Resolve(_) => t.status in {Resolved, Closed}
                case Escalate(byOfficer) => t.status !in {Open, InProgress} || (!byOfficer && t.slaDueAt >= now)
                case Close => t.status != Resolved
      ensures reply == if id !in tickets then NotFound else if snap.None? then Refused else Done
    {
      if id !in tickets { return NotFound, None; }
      if !Admits(tickets[id], r, now) { return Refused, None; }
      return Done, Some(tickets[id]);
    }

    method ReplyToGrievance(id: nat, snap: Ticket, user: string, body: string, now: int)
      requires id in tickets
      modifies this
      ensures tickets == old(tickets)[id := Transact(old(tickets)[id], snap, Reply(user, body), now)]
      ensures var was, t := old(tickets)[id], tickets[id];
              if snap.status.Resolved? && was.status.Resolved? then
                t == was.(status := InProgress, path := was.path + [InProgress], resolvedAt := None,
                          resolutionNote := None,
                          messages := was.messages + [Message(Customer, false), Message(System, false)])
              else t == was.(messages := was.messages + [Message(Customer, false)])
    {
      var t := tickets[id].Say(Customer, false);
      if snap.status.Resolved? {
        if t.status.Resolved? {
          t := t.Move(InProgress).(resolvedAt := None, resolutionNote := None);
          t := t.Say(System, false);
        }
      }
      tickets := tickets[id := t];
    }

    /** Aborts, and so rolls back, when the guarded update finds no row. */
    method AssignGrievance(id: nat, snap: Ticket, assignee: string, priority: Option<Priority>, now: int)
      returns (reply: Outcome)
      requires id in tickets
      modifies this
      ensures reply == if Guard(snap, old(tickets)[id]) then Done else ChangedState
      ensures tickets == if reply.Done?
                         then old(tickets)[id := Transact(old(tickets)[id], snap, Assign(assignee, priority), now)]
                         else old(tickets)
      ensures reply.Done? ==>
                var was, t := old(tickets)[id], tickets[id];
                && t.messages == was.messages + [Message(System, true)]
                && t.assignedTo == Some(assignee) && t.priority == priority.Or(snap.priority)
                && t.status == (if snap.status.Open? then InProgress else was.status)
                && t.slaDueAt == (if priority.None? || priority.value == snap.priority then snap.slaDueAt
                                  else snap.createdAt + 3_600_000 * match priority.value
                                                                   case Urgent => 24
                                                                   case High => 48
                                                                   case Normal => 72
                                                                   case Low => 120)
                && t.firstResponseAt ==
                   (if snap.status.Open? then Some(snap.firstResponseAt.Or(now)) else was.firstResponseAt)
                && t == was.(status := t.status, path := t.path, messages := t.messages, assignedTo := t.assignedTo,
                             priority := t.priority, slaDueAt := t.slaDueAt, dueBase := t.dueBase,
                             firstResponseAt := t.firstResponseAt)
    {
      var nextPriority := priority.Or(snap.priority);
      var slaDueAt, dueBase := snap.slaDueAt, snap.dueBase;
      if priority.Some? && priority.value != snap.priority {
        slaDueAt, dueBase := SlaDueAt(nextPriority, snap.createdAt), FromCreation;
      }
      var t := tickets[id];
      var movesToInProgress := snap.status.Open?;
      var guardStatuses := if movesToInProgress then {Open} else {InProgress, Escalated};
      if t.status !in guardStatuses { return ChangedState; }
      t := t.(assignedTo := Some(assignee), priority := nextPriority, slaDueAt := slaDueAt, dueBase := dueBase);
      if movesToInProgress {
        t := t.Move(InProgress).(firstResponseAt := Some(snap.firstResponseAt.Or(now)));
      }
      tickets := tickets[id := t.Say(System, true)];
      reply := Done;
    }

    method RespondToGrievance(id: nat, snap: Ticket, internal: bool, now: int)
      requires id in tickets
      modifies this
      ensures tickets == old(tickets)[id := Transact(old(tickets)[id], snap, Respond(internal), now)]
      ensures var was, t := old(tickets)[id], tickets[id];
              var guarded := if snap.status.Open? then was.status.Open?
                             else snap.firstResponseAt.None? && (was.status.InProgress? || was.status.Escalated?);
              && t.messages == was.messages + [Message(Officer, internal)]
              && t.firstResponseAt ==
                 (if !internal && guarded then Some(snap.firstResponseAt.Or(now)) else was.firstResponseAt)
              && t.status == (if !internal && guarded && snap.status.Open? then InProgress else was.status)
              && t == was.(status := t.status, path := t.path, messages := t.messages,
                           firstResponseAt := t.firstResponseAt)
    {
      var t := tickets[id].Say(Officer, internal);
      if !internal {
        var movesToInProgress := snap.status.Open?;
        if movesToInProgress || snap.firstResponseAt.None? {
          var guardStatuses := if movesToInProgress then {Open} else {InProgress, Escalated};
          if t.status in guardStatuses {
            t := t.(firstResponseAt := Some(snap.firstResponseAt.Or(now)));
            if movesToInProgress { t := t.Move(InProgress); }
          }
        }
      }
      tickets := tickets[id := t];
    }

    method ResolveGrievance(id: nat, snap: Ticket, note: string, now: int)
      requires id in tickets
      modifies this
      ensures tickets == old(tickets)[id := Transact(old(tickets)[id], snap, Resolve(note), now)]
      ensures var was, t := old(tickets)[id], tickets[id];
              if was.status.Resolved? || was.status.Closed? then t == was
              else t == was.(status := Resolved, path := was.path + [Resolved], resolutionNote := Some(note),
                             resolvedAt := Some(now), firstResponseAt := Some(snap.firstResponseAt.Or(now)),
                             messages := was.messages + [Message(Officer, false)])
    {
      var t := tickets[id];
      if t.status !in {Open, InProgress, Escalated} { return; }
      t := t.Move(Resolved).(resolutionNote := Some(note), resolvedAt := Some(now));
      t := t.(firstResponseAt := Some(snap.firstResponseAt.Or(now)));
      tickets := tickets[id := t.Say(Officer, false)];
    }

    method CloseGrievance(id: nat, snap: Ticket, now: int)
      requires id in tickets
      modifies this
      ensures tickets == old(tickets)[id := Transact(old(tickets)[id], snap, Close, now)]
      ensures var was, t := old(tickets)[id], tickets[id];
              if !was.status.Resolved? then t == was
              else t == was.(status := Closed, path := was.path + [Closed], closedAt := Some(now),
                             messages := was.messages + [Message(System, false)])
    {
      var t := tickets[id];
      if !t.status.Resolved? { return; }
      tickets := tickets[id := t.Move(Closed).(closedAt := Some(now)).Say(System, false)];
    }

    /** True exactly when this call performed the flip. */
    method ApplyEscalation(id: nat, byOfficer: bool, now: int) returns (flipped: bool)
      requires id in tickets
      modifies this
      ensures flipped <==> old(tickets)[id].status.Open? || old(tickets)[id].status.InProgress?
      ensures tickets == old(tickets)[id := Transact(old(tickets)[id], old(tickets)[id], Escalate(byOfficer), now)]
      ensures tickets[id].messages
              == old(tickets)[id].messages
                 + if flipped then [Message(if byOfficer then Officer else System, false)] else []
    {
      var t := tickets[id];
      flipped := t.status in OPEN_STATUSES;
      if flipped {
        t := t.Move(Escalated).(escalatedAt := Some(now));
        tickets := tickets[id := t.Say(if byOfficer then Officer else System, false)];
      }
    }

    /** One turn of the cron's loop. */
    method EscalateListed(id: nat, now: int, ghost before: map<nat, Ticket>, ghost done: seq<nat>) returns (did: bool)
      requires ChangedFor(before, tickets, done, AtOnce(now)) && id in tickets && id !in done
      modifies this
      ensures ChangedFor(before, tickets, done + [id], AtOnce(now))
      ensures IsOpenIn(before)(id) == if did then 1 else 0
    {
      ghost var mid := tickets;
      did := ApplyEscalation(id, false, now);
      ChangedOneMore(before, mid, tickets, done, id, AtOnce(now));
    }

    /** The cron over a list read earlier: by the time it runs, any ticket may have moved on.
        It escalates, and counts, exactly the listed tickets that are still open, once each. */
    method RunSlaEscalation(overdue: seq<nat>, now: int) returns (escalated: nat)
      requires forall id | id in overdue :: id in tickets
      requires Distinct(overdue)
      modifies this
      ensures escalated == Sum(overdue, IsOpenIn(old(tickets)))
      ensures ChangedFor(old(tickets), tickets, overdue, AtOnce(now))
    {
      escalated := 0;
      ghost var before := tickets;
      for i := 0 to |overdue|
        invariant ChangedFor(before, tickets, overdue[..i], AtOnce(now))
        invariant escalated == Sum(overdue[..i], IsOpenIn(before))
      {
        SumPrefix(overdue, i, IsOpenIn(before));
        assert overdue[..i + 1] == overdue[..i] + [overdue[i]] && overdue[i] !in overdue[..i];
        var did := EscalateListed(overdue[i], now, before, overdue[..i]);
        if did { escalated := escalated + 1; }
      }
      assert overdue[..|overdue|] == overdue;
    }
  }
}
