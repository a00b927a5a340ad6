/** Grievance tickets: the transition table, and every operation as a transaction that decides
    on a snapshot read earlier and writes under a status guard. */
module Grievance {
  import opened Options

  datatype Status = Open | InProgress | Escalated | Resolved | Closed
  datatype Priority = Urgent | High | Normal | Low
  datatype Role = Customer | Officer | System
  datatype Message = Message(role: Role, internal: bool)

  /** What a stored deadline was computed from. */
  datatype DueBase = FromFiling | FromCreation

  /** filedAt is when the complaint was received; the row is created a little later and the
      database dates it. The path and the base of the deadline are history: every status the
      ticket has had, and how its deadline came about. */
  datatype Ticket = Ticket(raisedBy: string, category: string, filedAt: int, createdAt: int,
                           status: Status, priority: Priority,
                           slaDueAt: int, dueBase: DueBase, assignedTo: Option<string>,
                           firstResponseAt: Option<int>,
                           escalatedAt: Option<int>, resolvedAt: Option<int>, resolutionNote: Option<string>,
                           closedAt: Option<int>, messages: seq<Message>, path: seq<Status>)
  {
    function Say(role: Role, internal: bool): Ticket
    {
      this.(messages := messages + [Message(role, internal)])
    }

    function Move(to: Status): Ticket
    {
      this.(status := to, path := path + [to])
    }
  }

  datatype Request =
    | Reply(user: string, body: string)
    | Assign(assignee: string, priority: Option<Priority>)
    | Respond(internal: bool)
    | Resolve(note: string)
    | Escalate(byOfficer: bool)
    | Close

  const HOUR_MS := 60 * 60 * 1000
  const OPEN_STATUSES := {Open, InProgress}

  function SlaHours(p: Priority): nat
  {
    match p case Urgent => 24 case High => 48 case Normal => 72 case Low => 120
  }

  function DefaultPriority(category: string): Priority
  {
    if category == "DATA_PRIVACY" then High else Normal
  }

  function SlaDueAt(p: Priority, from: int): int
  {
    from + SlaHours(p) * HOUR_MS
  }

  function Transitions(from: Status): set<Status>
  {
    match from
    case Open => {InProgress, Resolved, Escalated}
    case InProgress => {Resolved, Escalated}
    case Escalated => {InProgress, Resolved}
    case Resolved => {InProgress, Closed}
    case Closed => {}
  }

  function Filed(user: string, category: string, filedAt: int, now: int): Ticket
  {
    var p := DefaultPriority(category);
    Ticket(user, category, filedAt, now, Open, p, SlaDueAt(p, filedAt), FromFiling, None, None, None, None, None, None,
           [Message(Customer, false)], [Open])
  }

  /** The checks made on the snapshot, before the transaction. The cron's query is the check
      of an automatic escalation. */
  predicate Admits(snap: Ticket, r: Request, now: int)
  {
    match r
    case Reply(user, body) => 1 <= |body| <= 4000 && snap.raisedBy == user && !snap.status.Closed?
    case Assign(_, _) => !snap.status.Closed?
    case Respond(_) => !snap.status.Closed?
    case Resolve(_) => Resolved in Transitions(snap.status)
    case Escalate(byOfficer) =>
      if byOfficer then Escalated in Transitions(snap.status) else snap.status in OPEN_STATUSES && snap.slaDueAt < now
    case Close => Closed in Transitions(snap.status)
  }

  /** Where assign and respond may write, given what the snapshot showed. */
  predicate Guard(snap: Ticket, row: Ticket)
  {
    if snap.status.Open? then row.status.Open? else row.status.InProgress? || row.status.Escalated?
  }

  function FirstResponse(snap: Ticket, now: int): Option<int>
  {
    Some(snap.firstResponseAt.Or(now))
  }

  /** An assignment computes a deadline only for a priority that its snapshot does not have. */
  predicate Reprices(snap: Ticket, priority: Option<Priority>)
  {
    priority.Some? && priority.value != snap.priority
  }

  /** The transaction's effect on the row as it is now, decided on the snapshot. */
  function Transact(row: Ticket, snap: Ticket, r: Request, now: int): Ticket
  {
    match r
    case Reply(_, _) =>
      var said := row.Say(Customer, false);
      if snap.status.Resolved? && row.status.Resolved? then
        said.Move(InProgress).(resolvedAt := None, resolutionNote := None).Say(System, false)
      else said
    case Assign(assignee, priority) =>
      if !Guard(snap, row) then row
      else
        var next := priority.Or(snap.priority);
        var taken := if Reprices(snap, priority)
                     then row.(slaDueAt := SlaDueAt(next, snap.createdAt), dueBase := FromCreation)
                     else row.(slaDueAt := snap.slaDueAt, dueBase := snap.dueBase);
        var assignedRow := taken.(assignedTo := Some(assignee), priority := next);
        (if snap.status.Open? then assignedRow.Move(InProgress).(firstResponseAt := FirstResponse(snap, now))
         else assignedRow)
          .Say(System, true)
    case Respond(internal) =>
      var said := row.Say(Officer, internal);
      if internal || (!snap.status.Open? && snap.firstResponseAt.Some?) || !Guard(snap, row) then said
      else (if snap.status.Open? then said.Move(InProgress) else said).(firstResponseAt := FirstResponse(snap, now))
    case Resolve(note) =>
      if row.status !in {Open, InProgress, Escalated} then row
      else row.Move(Resolved).(resolutionNote := Some(note), resolvedAt := Some(now),
               firstResponseAt := FirstResponse(snap, now))
              .Say(Officer, false)
    case Escalate(byOfficer) =>
      if row.status !in OPEN_STATUSES then row
      else row.Move(Escalated).(escalatedAt := Some(now)).Say(if byOfficer then Officer else System, false)
    case Close =>
      if !row.status.Resolved? then row
      else row.Move(Closed).(closedAt := Some(now)).Say(System, false)
  }

  // ---- interleaved operations -------------------------------------------------

  /** An operation between its first read and its transaction. */
  datatype Op =
    | Filing(user: string, category: string, filedAt: int)
    | Acting(id: nat, snap: Ticket, request: Request)

  datatype State = State(now: int, tickets: map<nat, Ticket>, ops: map<nat, Op>)

  datatype Step =
    | Tick(ms: nat)
    | Receive(op: nat, user: string, category: string)
    | Read(op: nat, id: nat, request: Request)
    | Commit(op: nat, uuid: nat)
    | Drop(op: nat)

  predicate CanStep(s: State, step: Step)
  {
    match step
    case Tick(_) => true
    case Receive(op, _, _) => op !in s.ops
    case Read(op, id, r) => op !in s.ops && id in s.tickets && Admits(s.tickets[id], r, s.now)
    case Commit(op, uuid) => op in s.ops && if s.ops[op].Filing? then uuid !in s.tickets else s.ops[op].id in s.tickets
    case Drop(op) => op in s.ops
  }

  function Take(s: State, step: Step): State
    requires CanStep(s, step)
  {
    match step
    case Tick(ms) => s.(now := s.now + ms)
    case Receive(op, user, category) => s.(ops := s.ops[op := Filing(user, category, s.now)])
    case Read(op, id, r) => s.(ops := s.ops[op := Acting(id, s.tickets[id], r)])
    case Commit(op, uuid) =>
      var done := s.(ops := s.ops - {op});
      (match s.ops[op]
       case Filing(user, category, filedAt) =>
         done.(tickets := s.tickets[uuid := Filed(user, category, filedAt, s.now)])
       case Acting(id, snap, r) => done.(tickets := s.tickets[id := Transact(s.tickets[id], snap, r, s.now)]))
    case Drop(op) => s.(ops := s.ops - {op})
  }
}
