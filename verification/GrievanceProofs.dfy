/** What every interleaving of grievance operations keeps, whatever their snapshots. */
module GrievanceProofs {
  import opened Options
  import opened Grievance

  ghost predicate IsPath(path: seq<Status>)
  {
    |path| > 0 && path[0] == Open && forall i | 0 < i < |path| :: path[i] in Transitions(path[i - 1])
  }

  /** The stored deadline is that of the stored priority, from its base. */
  ghost predicate DueFromItsBase(t: Ticket)
  {
    t.slaDueAt == SlaDueAt(t.priority, if t.dueBase.FromFiling? then t.filedAt else t.createdAt)
  }

  /** The stamps agree with the status and follow each other in time. */
  ghost predicate Stamped(t: Ticket, now: int)
  {
    && t.filedAt <= t.createdAt <= now
    && (t.resolvedAt.Some? <==> t.status.Resolved? || t.status.Closed?)
    && (t.resolutionNote.Some? <==> t.resolvedAt.Some?)
    && (t.closedAt.Some? <==> t.status.Closed?)
    && (t.status.Escalated? ==> t.escalatedAt.Some?)
    && (t.resolvedAt.Some? ==> t.createdAt <= t.resolvedAt.value <= now)
    && (t.closedAt.Some? ==> t.resolvedAt.value <= t.closedAt.value <= now)
    && (t.status.Open? ==> t.firstResponseAt.None?)
    && (t.status.InProgress? || t.status.Resolved? || t.status.Closed? ==> t.firstResponseAt.Some?)
  }

  ghost predicate Good(t: Ticket, now: int)
  {
    && Stamped(t, now)
    && DueFromItsBase(t)
    && IsPath(t.path) && t.path[|t.path| - 1] == t.status
    && |t.messages| >= |t.path|
  }

  /** What a row never loses: whoever reads it later finds it no less far along. */
  ghost predicate Before(was: Ticket, t: Ticket)
  {
    && was.raisedBy == t.raisedBy && was.category == t.category && was.filedAt == t.filedAt
    && was.createdAt == t.createdAt
    && was.path <= t.path && was.messages <= t.messages
    && (was.firstResponseAt.Some? ==> t.firstResponseAt.Some?)
  }

  /** A closed ticket changes only by messages added to its thread. */
  ghost predicate Frozen(was: Ticket, t: Ticket)
  {
    was.status.Closed? ==> t.(messages := was.messages) == was
  }

  lemma {:induction false} PathExtends(path: seq<Status>, to: Status)
    requires IsPath(path) && to in Transitions(path[|path| - 1])
    ensures IsPath(path + [to])
  {
  }

  lemma {:induction false} TransactStamped(row: Ticket, snap: Ticket, r: Request, now: int)
    requires Good(row, now) && Good(snap, now) && Before(snap, row)
    ensures Stamped(Transact(row, snap, r, now), now)
  {
  }

  /** An assignment writes a priority and its deadline together, from one snapshot. */
  lemma {:induction false} TransactDue(row: Ticket, snap: Ticket, r: Request, now: int)
    requires DueFromItsBase(row) && DueFromItsBase(snap)
             && snap.filedAt == row.filedAt && snap.createdAt == row.createdAt
    ensures DueFromItsBase(Transact(row, snap, r, now))
  {
  }

  lemma {:induction false} TransactGood(row: Ticket, snap: Ticket, r: Request, now: int)
    requires Good(row, now) && Good(snap, now) && Before(snap, row)
    ensures Good(Transact(row, snap, r, now), now)
  {
    var t := Transact(row, snap, r, now);
    TransactStamped(row, snap, r, now);
    TransactDue(row, snap, r, now);
    TransactIsAnEdge(row, snap, r, now);
    if t.path != row.path { PathExtends(row.path, t.status); }
  }

  lemma {:induction false} TransactGoesForward(row: Ticket, snap: Ticket, r: Request, now: int)
    requires Good(row, now) && Good(snap, now) && Before(snap, row)
    ensures Before(row, Transact(row, snap, r, now)) && Frozen(row, Transact(row, snap, r, now))
  {
    TransactSays(row, snap, r, now);
    TransactIsAnEdge(row, snap, r, now);
  }

  /** One transaction moves the status along at most one edge of the table, and says so in the thread. */
  lemma {:induction false} TransactIsAnEdge(row: Ticket, snap: Ticket, r: Request, now: int)
    ensures var t := Transact(row, snap, r, now);
            (t.path == row.path && t.status == row.status && |t.messages| >= |row.messages|)
            || (t.path == row.path + [t.status] && t.status in Transitions(row.status) && |t.messages| > |row.messages|)
  {
  }

  // ---- the thread -------------------------------------------------------------

  /** What an operation adds to the thread, and who may read it. */
  function Says(row: Ticket, snap: Ticket, r: Request): seq<Message>
  {
    match r
    case Reply(_, _) =>
      if snap.status.Resolved? && row.status.Resolved? then [Message(Customer, false), Message(System, false)]
      else [Message(Customer, false)]
    case Assign(_, _) => if Guard(snap, row) then [Message(System, true)] else []
    case Respond(internal) => [Message(Officer, internal)]
    case Resolve(_) => if row.status.Resolved? || row.status.Closed? then [] else [Message(Officer, false)]
    case Escalate(byOfficer) =>
      if row.status.Open? || row.status.InProgress? then [Message(if byOfficer then Officer else System, false)] else []
    case Close => if row.status.Resolved? then [Message(System, false)] else []
  }

  lemma {:induction false} TransactSays(row: Ticket, snap: Ticket, r: Request, now: int)
    ensures Transact(row, snap, r, now).messages == row.messages + Says(row, snap, r)
  {
  }

  /** An escalation, column by column. */
  lemma {:induction false} EscalationIs(row: Ticket, snap: Ticket, byOfficer: bool, now: int)
    ensures Transact(row, snap, Escalate(byOfficer), now)
            == if !row.status.Open? && !row.status.InProgress? then row
               else row.(status := Escalated, path := row.path + [Escalated], escalatedAt := Some(now),
                         messages := row.messages + [Message(if byOfficer then Officer else System, false)])
  {
  }

  /** The thread as the customer sees it. */
  function Public(messages: seq<Message>): seq<Message>
  {
    if messages == [] then []
    else
      var before, last := Public(messages[..|messages| - 1]), messages[|messages| - 1];
      if last.internal then before else before + [last]
  }

  lemma {:induction false} PublicJoins(xs: seq<Message>, ys: seq<Message>)
    ensures Public(xs + ys) == Public(xs) + Public(ys)
  {
    if ys == [] {
      assert xs + ys == xs;
    } else {
      assert (xs + ys)[..|xs + ys| - 1] == xs + ys[..|ys| - 1];
      PublicJoins(xs, ys[..|ys| - 1]);
    }
  }

  /** A customer's reply, a public response, and whatever resolves, closes or escalates. */
  predicate SpeaksInPublic(row: Ticket, t: Ticket, r: Request)
  {
    match r
    case Reply(_, _) => true
    case Respond(internal) => !internal
    case Assign(_, _) => false
    case _ => t.status != row.status
  }

  lemma {:induction false} SaysInPublic(row: Ticket, snap: Ticket, r: Request, now: int)
    ensures Public(Says(row, snap, r)) != [] <==> SpeaksInPublic(row, Transact(row, snap, r, now), r)
  {
    var says := Says(row, snap, r);
    if |says| == 2 { assert says[..1] == [says[0]] && says[..1][..0] == []; }
    if |says| == 1 { assert says[..0] == []; }
  }

  /** The commit of an operation that the customer hears of. */
  predicate Heard(s: State, step: Step, id: nat)
    requires CanStep(s, step)
  {
    match step
    case Commit(op, _) =>
      s.ops[op].Acting? && s.ops[op].id == id
      && SpeaksInPublic(s.tickets[id], Take(s, step).tickets[id], s.ops[op].request)
    case _ => false
  }

  /** One step of any state: the thread as the customer sees it grows exactly when an operation
      that speaks in public commits. */
  lemma {:induction false} PublicGrows(s: State, step: Step, id: nat)
    requires CanStep(s, step) && id in s.tickets
    ensures var was, next := Public(s.tickets[id].messages), Public(Take(s, step).tickets[id].messages);
            was <= next && (next != was <==> Heard(s, step, id))
  {
    if step.Commit? && s.ops[step.op].Acting? && s.ops[step.op].id == id {
      var Acting(_, snap, r) := s.ops[step.op];
      var row := s.tickets[id];
      TransactSays(row, snap, r, s.now);
      PublicJoins(row.messages, Says(row, snap, r));
      SaysInPublic(row, snap, r, s.now);
    }
  }

  // ---- runs -----------------------------------------------------------------

  ghost predicate GoodOp(s: State, op: Op)
  {
    match op
    case Filing(_, _, filedAt) => filedAt <= s.now
    case Acting(id, snap, _) => id in s.tickets && Good(snap, s.now) && Before(snap, s.tickets[id])
  }

  ghost predicate Sound(s: State)
  {
    && (forall id | id in s.tickets :: Good(s.tickets[id], s.now))
    && (forall op | op in s.ops :: GoodOp(s, s.ops[op]))
  }

  lemma {:induction false} LaterGood(t: Ticket, now: int, later: int)
    requires Good(t, now) && now <= later
    ensures Good(t, later)
  {
  }

  lemma {:induction false} SoundStep(s: State, step: Step)
    requires Sound(s) && CanStep(s, step)
    ensures Sound(Take(s, step))
    ensures forall id | id in s.tickets ::
              id in Take(s, step).tickets && Before(s.tickets[id], Take(s, step).tickets[id])
              && Frozen(s.tickets[id], Take(s, step).tickets[id])
  {
    match step {
      case Tick(ms) =>
        forall id | id in s.tickets ensures Good(s.tickets[id], s.now + ms) {
          LaterGood(s.tickets[id], s.now, s.now + ms);
        }
        forall op | op in s.ops ensures GoodOp(Take(s, step), s.ops[op]) {
          if s.ops[op].Acting? { LaterGood(s.ops[op].snap, s.now, s.now + ms); }
        }
      case Commit(op, uuid) => if s.ops[op].Acting? { SoundAct(s, op, uuid); } else { SoundFiling(s, op, uuid); }
      case _ =>
    }
  }

  lemma {:induction false} SoundFiling(s: State, op: nat, uuid: nat)
    requires Sound(s) && CanStep(s, Commit(op, uuid)) && s.ops[op].Filing?
    ensures Sound(Take(s, Commit(op, uuid)))
  {
    var t := Take(s, Commit(op, uuid));
    assert Good(t.tickets[uuid], t.now);
    forall o | o in t.ops ensures GoodOp(t, t.ops[o]) {
      assert GoodOp(s, s.ops[o]);
    }
  }

  lemma {:induction false} SoundAct(s: State, op: nat, uuid: nat)
    requires Sound(s) && CanStep(s, Commit(op, uuid)) && s.ops[op].Acting?
    ensures Sound(Take(s, Commit(op, uuid)))
    ensures var id := s.ops[op].id;
            Before(s.tickets[id], Take(s, Commit(op, uuid)).tickets[id])
            && Frozen(s.tickets[id], Take(s, Commit(op, uuid)).tickets[id])
  {
    var Acting(id, snap, r) := s.ops[op];
    var row, t := s.tickets[id], Take(s, Commit(op, uuid));
    assert GoodOp(s, s.ops[op]);
    TransactGood(row, snap, r, s.now);
    TransactGoesForward(row, snap, r, s.now);
    forall o | o in t.ops ensures GoodOp(t, t.ops[o]) {
      assert GoodOp(s, s.ops[o]);
      if t.ops[o].Acting? && t.ops[o].id == id { BeforeTrans(t.ops[o].snap, row, t.tickets[id]); }
    }
  }

  lemma {:induction false} BeforeTrans(a: Ticket, b: Ticket, c: Ticket)
    requires Before(a, b) && Before(b, c)
    ensures Before(a, c)
  {
  }

  function Initial(now: int): State { State(now, map[], map[]) }

  ghost predicate CanRun(s: State, steps: seq<Step>)
    decreases |steps|, 0
  {
    steps == [] || (CanRun(s, steps[..|steps| - 1]) && CanStep(After(s, steps[..|steps| - 1]), steps[|steps| - 1]))
  }

  ghost function After(s: State, steps: seq<Step>): State
    requires CanRun(s, steps)
    decreases |steps|, 1
  {
    if steps == [] then s else Take(After(s, steps[..|steps| - 1]), steps[|steps| - 1])
  }

  lemma {:induction false} RunSound(s: State, steps: seq<Step>, id: nat)
    requires Sound(s) && CanRun(s, steps)
    ensures Sound(After(s, steps))
    ensures id in s.tickets ==>
              id in After(s, steps).tickets && Before(s.tickets[id], After(s, steps).tickets[id])
              && Frozen(s.tickets[id], After(s, steps).tickets[id])
  {
    if steps == [] {
    } else {
      var before := After(s, steps[..|steps| - 1]);
      RunSound(s, steps[..|steps| - 1], id);
      SoundStep(before, steps[|steps| - 1]);
      if id in s.tickets { BeforeTrans(s.tickets[id], before.tickets[id], After(s, steps).tickets[id]); }
    }
  }

  /** Every interleaving of any operations on any snapshots: statuses walk the transition
      table, stamps agree with the status, the deadline is the priority's, a first response is
      never forgotten, and a closed ticket keeps its row for ever. */
  lemma {:induction false} EveryRunSound(now: int, steps: seq<Step>, more: seq<Step>, id: nat)
    requires CanRun(Initial(now), steps) && CanRun(After(Initial(now), steps), more)
    requires id in After(Initial(now), steps).tickets
    ensures var s := After(Initial(now), steps);
            var t := After(s, more);
            && id in t.tickets
            && Good(s.tickets[id], s.now) && Good(t.tickets[id], t.now)
            && Before(s.tickets[id], t.tickets[id]) && Frozen(s.tickets[id], t.tickets[id])
  {
    RunSound(Initial(now), steps, id);
    RunSound(After(Initial(now), steps), more, id);
  }

  /** Over every run: what the customer has seen stays, and there is more to see at the end exactly
      if some operation that speaks in public was committed on the way. */
  lemma {:induction false} PublicThread(s: State, steps: seq<Step>, id: nat)
    requires CanRun(s, steps) && id in s.tickets
    ensures id in After(s, steps).tickets
    ensures var was, now := Public(s.tickets[id].messages), Public(After(s, steps).tickets[id].messages);
            was <= now && (now != was <==> HeardIn(s, steps, id))
  {
    if steps != [] {
      PublicThread(s, steps[..|steps| - 1], id);
      PublicGrows(After(s, steps[..|steps| - 1]), steps[|steps| - 1], id);
    }
  }

  ghost predicate HeardIn(s: State, steps: seq<Step>, id: nat)
    requires CanRun(s, steps)
  {
    steps != []
    && (HeardIn(s, steps[..|steps| - 1], id) || Heard(After(s, steps[..|steps| - 1]), steps[|steps| - 1], id))
  }

  // ---- what does not hold ---------------------------------------------------

  /** Every reachable ticket: its deadline is its priority's from creation exactly when it was
      last computed from there, or when no time passed between filing and creation. */
  lemma {:induction false} DeadlineFromCreation(now: int, steps: seq<Step>, id: nat)
    requires CanRun(Initial(now), steps) && id in After(Initial(now), steps).tickets
    ensures var t := After(Initial(now), steps).tickets[id];
            t.slaDueAt == SlaDueAt(t.priority, t.createdAt) <==> t.dueBase.FromCreation? || t.filedAt == t.createdAt
  {
    RunSound(Initial(now), steps, id);
  }

  /** What an assignment does to a re-priced ticket. It puts the deadline back to the moment of
      filing exactly when it is written, re-prices nothing itself, and its snapshot was taken
      before the re-pricing; and it puts back a priority nobody asked for exactly when its
      snapshot shows another one. */
  lemma {:induction false} AssignmentUndoes(row: Ticket, snap: Ticket, assignee: string, priority: Option<Priority>,
                                            now: int)
    requires Good(row, now) && Good(snap, now) && Before(snap, row)
    ensures var t := Transact(row, snap, Assign(assignee, priority), now);
            && (row.dueBase.FromCreation? && t.dueBase.FromFiling? <==>
                  && Guard(snap, row) && !Reprices(snap, priority)
                  && snap.dueBase.FromFiling? && row.dueBase.FromCreation?)
            && (priority.None? ==> (t.priority != row.priority <==> Guard(snap, row) && snap.priority != row.priority))
            && (snap == row && priority.None? ==>
                  t.priority == row.priority && t.slaDueAt == row.slaDueAt && t.dueBase == row.dueBase)
  {
  }

  /** A run in which an assignment read before a re-pricing takes it back. */
  lemma {:induction false} RepricingUndone(user: string) returns (steps: seq<Step>, last: Step)
    ensures CanRun(Initial(0), steps) && 0 in After(Initial(0), steps).tickets
    ensures var t := After(Initial(0), steps).tickets[0]; t.priority == High && t.dueBase.FromCreation?
    ensures CanRun(Initial(0), steps + [last]) && 0 in After(Initial(0), steps + [last]).tickets
    ensures var t := After(Initial(0), steps + [last]).tickets[0]; t.priority == Normal && t.dueBase.FromFiling?
  {
    var plain := Assign("a", None);
    RepricingFacts(user);
    steps := RepricedTicket(user);
    last := Commit(0, 0);
    var more := Reach(steps, last, State(1, map[0 := Transact(Repriced(user), Started(user), plain, 1)], map[]));
  }

  function Repriced(user: string): Ticket
  {
    Transact(Started(user), Started(user), Assign("b", Some(High)), 1)
  }

  lemma {:induction false} RepricingFacts(user: string)
    ensures Repriced(user).priority == High && Repriced(user).dueBase.FromCreation?
    ensures var t := Transact(Repriced(user), Started(user), Assign("a", None), 1);
            t.priority == Normal && t.dueBase.FromFiling?
  {
  }

  /** The assignment has read the ticket, and then it is re-priced. */
  lemma {:induction false} RepricedTicket(user: string) returns (steps: seq<Step>)
    ensures CanRun(Initial(0), steps)
    ensures After(Initial(0), steps)
         == State(1, map[0 := Repriced(user)], map[0 := Acting(0, Started(user), Assign("a", None))])
  {
    var started, plain, high := Started(user), Assign("a", None), Assign("b", Some(High));
    steps := StartedTicket(user);
    steps := Reach(steps, Read(0, 0, plain), State(1, map[0 := started], map[0 := Acting(0, started, plain)]));
    steps := Reach(steps, Read(1, 0, high),
                   State(1, map[0 := started], map[0 := Acting(0, started, plain), 1 := Acting(0, started, high)]));
    steps := Reach(steps, Commit(1, 0), State(1, map[0 := Repriced(user)], map[0 := Acting(0, started, plain)]));
  }

  /** A ticket filed at 0, created at 1 and answered at once. */
  function Started(user: string): Ticket
  {
    var filed := Filed(user, "OTHER", 0, 1);
    Transact(filed, filed, Respond(false), 1)
  }

  lemma {:induction false} StartedTicket(user: string) returns (steps: seq<Step>)
    ensures CanRun(Initial(0), steps) && After(Initial(0), steps) == State(1, map[0 := Started(user)], map[])
  {
    var filed := Filed(user, "OTHER", 0, 1);
    steps := OneTicket(user);
    steps := Reach(steps, Read(0, 0, Respond(false)),
                   State(1, map[0 := filed], map[0 := Acting(0, filed, Respond(false))]));
    steps := Reach(steps, Commit(0, 0), State(1, map[0 := Started(user)], map[]));
  }

  lemma {:induction false} OneTicket(user: string) returns (steps: seq<Step>)
    ensures CanRun(Initial(0), steps)
    ensures After(Initial(0), steps) == State(1, map[0 := Filed(user, "OTHER", 0, 1)], map[])
  {
    steps := [];
    steps := Reach(steps, Receive(0, user, "OTHER"), State(0, map[], map[0 := Filing(user, "OTHER", 0)]));
    steps := Reach(steps, Tick(1), State(1, map[], map[0 := Filing(user, "OTHER", 0)]));
    steps := Reach(steps, Commit(0, 0), State(1, map[0 := Filed(user, "OTHER", 0, 1)], map[]));
  }

  lemma {:induction false} Reach(steps: seq<Step>, step: Step, t: State) returns (more: seq<Step>)
    requires CanRun(Initial(0), steps) && CanStep(After(Initial(0), steps), step)
    requires Take(After(Initial(0), steps), step) == t
    ensures more == steps + [step] && CanRun(Initial(0), more) && After(Initial(0), more) == t
  {
    more := steps + [step];
    assert more[..|steps|] == steps;
  }

  /** An operation admitted on the row itself takes effect, unless it assigns a RESOLVED ticket:
      that passes the check and is then aborted by the guard. What takes effect is what was asked. */
  lemma {:induction false} AdmittedTakesEffect(row: Ticket, r: Request, now: int)
    requires Admits(row, r, now)
    ensures var t := Transact(row, row, r, now);
            && (t != row <==> !(r.Assign? && row.status.Resolved?))
            && (r.Resolve? ==> t.status.Resolved?) && (r.Close? ==> t.status.Closed?)
            && (r.Escalate? ==> t.status.Escalated?)
            && (r.Reply? ==> !t.status.Resolved?)
            && (r.Assign? && !row.status.Resolved? ==> t.assignedTo == Some(r.assignee) && !t.status.Open?)
  {
    assert forall role, b :: |row.Say(role, b).messages| == |row.messages| + 1;
    var t := Transact(row, row, r, now);
    assert !(r.Assign? && row.status.Resolved?) ==> |t.messages| > |row.messages|;
  }

  /** A closed ticket's thread still grows under exactly the operations that write their message
      before any guard: a reply or response admitted on a snapshot taken before the closure. */
  lemma {:induction false} LateMessage(row: Ticket, snap: Ticket, r: Request, now: int)
    requires row.status.Closed?
    ensures Transact(row, snap, r, now) != row <==> r.Reply? || r.Respond?
    ensures Admits(row, r, now) ==> false
  {
    assert |row.Say(Customer, false).messages| > |row.messages|;
    assert forall b :: |row.Say(Officer, b).messages| > |row.messages|;
  }

  /** A recorded first response is moved exactly when a public response or a resolution writes
      and its snapshot does not show the same moment. */
  lemma {:induction false} FirstResponseMoves(row: Ticket, snap: Ticket, r: Request, now: int)
    requires Good(row, now) && Good(snap, now) && Before(snap, row) && row.firstResponseAt.Some?
    ensures Transact(row, snap, r, now).firstResponseAt != row.firstResponseAt <==>
              && snap.firstResponseAt.Or(now) != row.firstResponseAt.value
              && ((r == Respond(false) && snap.firstResponseAt.None? && Guard(snap, row))
                  || (r.Resolve? && row.status in {Open, InProgress, Escalated}))
  {
  }
}
