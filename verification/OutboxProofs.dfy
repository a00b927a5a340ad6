/** What every interleaving of the outbox keeps, how an event reaches its queue, and exactly
    when a final status is there to stay. */
module OutboxProofs {
  import opened Options
  import opened Outbox

  // ---- every interleaving ---------------------------------------------------

  /** The books of one event, kept by every step whatever is in flight. */
  ghost predicate Accounted(e: Event)
  {
    && e.row.attempts <= e.failed
    && e.row.maxAttempts == MAX_ATTEMPTS
    && (forall run | run in e.runs :: run.view.attempts <= e.failed && run.view.maxAttempts == MAX_ATTEMPTS)
    && e.started == e.succeeded + e.failed + e.crashed + |e.runs|
    && (e.row.status.Done? ==> e.succeeded > 0 && e.row.processedAt.Some?)
    && (e.row.status.Failed? ==> !Registered(e.row) || e.failed >= MAX_ATTEMPTS)
    && (!Registered(e.row) ==> e.job.NoJob? && e.started == 0)
  }

  lemma {:induction false} AccountedStep(e: Event, now: int, a: Action)
    requires Accounted(e) && Enabled(e, now, a)
    ensures Accounted(Next(e, now, a)) && Next(e, now, a).row.request == e.row.request
  {
  }

  /** Position i of the committed requests has a row: it has no key or is first with its key. */
  ghost predicate Kept(committed: seq<Request>, i: nat)
    requires i < |committed|
  {
    committed[i].key.None? || forall j | 0 <= j < i :: committed[j].key != committed[i].key
  }

  ghost predicate RowsAreRequests(s: State)
  {
    && (forall i | i in s.events ::
          i < |s.committed| && Kept(s.committed, i) && s.events[i].row.request == s.committed[i])
    && (forall i | 0 <= i < |s.committed| && Kept(s.committed, i) :: i in s.events)
  }

  ghost predicate Consistent(s: State)
  {
    RowsAreRequests(s) && forall i | i in s.events :: Accounted(s.events[i])
  }

  /** A key is taken in the table exactly when some committed request carried it. */
  lemma {:induction false} TakenKeys(s: State, key: Option<string>)
    requires RowsAreRequests(s) && key.Some?
    ensures KeyTaken(s, key) <==> exists j | 0 <= j < |s.committed| :: s.committed[j].key == key
  {
    if j :| 0 <= j < |s.committed| && s.committed[j].key == key {
      var first := FirstWith(s.committed, key, j);
      assert Kept(s.committed, first) && first in s.events;
    }
  }

  ghost function FirstWith(committed: seq<Request>, key: Option<string>, j: nat): (first: nat)
    requires j < |committed| && committed[j].key == key
    ensures first <= j && committed[first].key == key
    ensures forall i | 0 <= i < first :: committed[i].key != key
  {
    if i :| 0 <= i < j && committed[i].key == key then FirstWith(committed, key, i) else j
  }

  lemma {:induction false} KeptPrefix(committed: seq<Request>, r: Request, i: nat)
    requires i <= |committed|
    ensures i < |committed| ==> (Kept(committed + [r], i) <==> Kept(committed, i))
    ensures i == |committed| ==>
              (Kept(committed + [r], i) <==> r.key.None? || forall j | 0 <= j < i :: committed[j].key != r.key)
  {
    var all := committed + [r];
    assert all[..|committed|] == committed;
    assert forall j | 0 <= j < |committed| :: all[j] == committed[j];
  }

  lemma {:induction false} InsertRows(s: State, r: Request)
    requires RowsAreRequests(s)
    ensures RowsAreRequests(Insert(s, r))
  {
    var t := Insert(s, r);
    if r.key.Some? { TakenKeys(s, r.key); }
    forall i | 0 <= i < |t.committed|
      ensures Kept(t.committed, i) <==> if i < |s.committed| then Kept(s.committed, i) else !KeyTaken(s, r.key)
    {
      KeptPrefix(s.committed, r, i);
    }
  }

  lemma {:induction false} InsertAllRows(s: State, rs: seq<Request>)
    requires RowsAreRequests(s)
    ensures RowsAreRequests(InsertAll(s, rs)) && InsertAll(s, rs).committed == s.committed + rs
  {
    if rs != [] {
      var init := rs[..|rs| - 1];
      InsertAllRows(s, init);
      InsertRows(InsertAll(s, init), rs[|rs| - 1]);
      assert init + [rs[|rs| - 1]] == rs;
    }
  }

  lemma {:induction false} InsertAllKeeps(s: State, rs: seq<Request>)
    requires RowsAreRequests(s)
    ensures forall i | i in s.events :: i in InsertAll(s, rs).events && InsertAll(s, rs).events[i] == s.events[i]
    ensures forall i | i in InsertAll(s, rs).events && i !in s.events :: Accounted(InsertAll(s, rs).events[i])
  {
    if rs != [] {
      InsertAllKeeps(s, rs[..|rs| - 1]);
      InsertAllRows(s, rs[..|rs| - 1]);
      assert forall i | i in s.events :: i < |s.committed|;
    }
  }

  lemma {:induction false} ConsistentStep(s: State, step: Step)
    requires Consistent(s) && CanStep(s, step)
    ensures Consistent(Take(s, step))
  {
    match step {
      case Commit(tx) =>
        InsertAllRows(s, s.open[tx]);
        InsertAllKeeps(s, s.open[tx]);
      case At(id, action) => ConsistentAt(s, id, action);
      case _ => assert Take(s, step).events == s.events && Take(s, step).committed == s.committed;
    }
  }

  lemma {:induction false} ConsistentAt(s: State, id: nat, a: Action)
    requires Consistent(s) && CanStep(s, At(id, a))
    ensures Consistent(Take(s, At(id, a)))
  {
    AccountedStep(s.events[id], s.now, a);
    var e := Next(s.events[id], s.now, a);
    assert Take(s, At(id, a)).events == s.events[id := e];
  }

  /** Every interleaving: a row exists for exactly the committed requests that are first with
      their key; DONE means a handler succeeded; FAILED means an unregistered queue or at
      least eight failed runs; every handler run is accounted for. */
  lemma {:induction false} EveryRunConsistent(now: int, steps: seq<Step>)
    requires CanRun(Initial(now), steps)
    ensures Consistent(After(Initial(now), steps))
  {
    if steps != [] {
      EveryRunConsistent(now, steps[..|steps| - 1]);
      ConsistentStep(After(Initial(now), steps[..|steps| - 1]), steps[|steps| - 1]);
    }
  }

  // ---- a path to dispatch ---------------------------------------------------

  ghost predicate Dispatched(e: Event)
  {
    if Registered(e.row) then e.job.Live? else e.row.status.Failed?
  }

  /** An event that is not final can always reach its queue: the clock and a relay suffice. */
  lemma {:induction false} PathToDispatch(s: State, id: nat)
    requires id in s.events && (s.events[id].row.status.Pending? || s.events[id].row.status.Processing?)
    ensures exists steps :: CanRun(s, steps) && id in After(s, steps).events && Dispatched(After(s, steps).events[id])
  {
    var row := s.events[id].row;
    if row.status.Processing? {
      var wait := if row.updatedAt < s.now then 0 else row.updatedAt - s.now;
      var reclaimed := [Tick(wait + STALE_MS + 1), At(id, Reclaim)];
      RunTwo(s, reclaimed[0], reclaimed[1]);
      var tail := FromPending(After(s, reclaimed), id);
      RunJoins(s, reclaimed, tail);
    } else {
      var tail := FromPending(s, id);
    }
  }

  lemma {:induction false} FromPending(s: State, id: nat) returns (steps: seq<Step>)
    requires id in s.events && s.events[id].row.status.Pending?
    ensures CanRun(s, steps) && id in After(s, steps).events && Dispatched(After(s, steps).events[id])
  {
    var row := s.events[id].row;
    var due := s.now + if row.nextRunAt <= s.now then 0 else row.nextRunAt - s.now;
    var claim := [Tick(due - s.now), At(id, Claim)];
    RunTwo(s, claim[0], claim[1]);
    var last := At(id, if Registered(row) then AddSucceeds(due) else Park(due));
    steps := claim + [last];
    assert steps[..|steps| - 1] == claim;
  }

  lemma {:induction false} RunTwo(s: State, first: Step, second: Step)
    requires CanStep(s, first) && CanStep(Take(s, first), second)
    ensures CanRun(s, [first, second]) && After(s, [first, second]) == Take(Take(s, first), second)
  {
    RunOne(s, first);
    assert [first, second][..1] == [first];
  }

  lemma {:induction false} RunJoins(s: State, steps: seq<Step>, more: seq<Step>)
    requires CanRun(s, steps) && CanRun(After(s, steps), more)
    ensures CanRun(s, steps + more) && After(s, steps + more) == After(After(s, steps), more)
  {
    if more == [] {
      assert steps + more == steps;
    } else {
      var init := more[..|more| - 1];
      RunJoins(s, steps, init);
      assert (steps + more)[..|steps + more| - 1] == steps + init;
    }
  }

  // ---- when a final status is final -----------------------------------------

  /** Nothing in flight can still write the row. */
  ghost predicate Quiet(e: Event)
  {
    match e.row.status
    case Done => e.dispatches == multiset{} && e.runs == multiset{}
    case _ => (Registered(e.row) ==> e.dispatches == multiset{}) && e.runs == multiset{} && e.job.NoJob?
  }

  ghost predicate Final(row: Row) { row.status.Done? || row.status.Failed? }

  lemma {:induction false} QuietNext(e: Event, now: int, a: Action)
    requires Accounted(e) && Enabled(e, now, a) && Final(e.row) && Quiet(e)
    ensures var f := Next(e, now, a); Quiet(f) && f.row.status == e.row.status && f.started == e.started
  {
  }

  /** Only a step of its own changes an event. */
  lemma {:induction false} Untouched(s: State, step: Step, id: nat)
    requires Consistent(s) && CanStep(s, step) && id in s.events && !(step.At? && step.id == id)
    ensures id in Take(s, step).events && Take(s, step).events[id] == s.events[id]
  {
    match step {
      case Commit(tx) => InsertAllKeeps(s, s.open[tx]);
      case _ =>
    }
  }

  lemma {:induction false} QuietStep(s: State, step: Step, id: nat)
    requires Consistent(s) && CanStep(s, step) && id in s.events && Final(s.events[id].row) && Quiet(s.events[id])
    ensures id in Take(s, step).events
    ensures var f := Take(s, step).events[id];
            Quiet(f) && f.row.status == s.events[id].row.status && f.started == s.events[id].started
  {
    if step.At? && step.id == id {
      QuietNext(s.events[id], s.now, step.action);
    } else {
      Untouched(s, step, id);
    }
  }

  lemma {:induction false} QuietForever(s: State, steps: seq<Step>, id: nat)
    requires Consistent(s) && CanRun(s, steps) && id in s.events && Final(s.events[id].row) && Quiet(s.events[id])
    ensures Consistent(After(s, steps)) && id in After(s, steps).events && Quiet(After(s, steps).events[id])
    ensures After(s, steps).events[id].row.status == s.events[id].row.status
    ensures After(s, steps).events[id].started == s.events[id].started
  {
    if steps != [] {
      QuietForever(s, steps[..|steps| - 1], id);
      ConsistentStep(After(s, steps[..|steps| - 1]), steps[|steps| - 1]);
      QuietStep(After(s, steps[..|steps| - 1]), steps[|steps| - 1], id);
    }
  }

  ghost predicate StaysPut(s: State, id: nat)
    requires id in s.events
  {
    forall steps | CanRun(s, steps) ::
      id in After(s, steps).events && After(s, steps).events[id].row.status == s.events[id].row.status
  }

  /** A final status survives every continuation exactly when nothing that could still write
      the row is in flight: the writes themselves carry no status guard. */
  lemma {:induction false} FinalExactlyWhenQuiet(s: State, id: nat)
    requires Consistent(s) && id in s.events && Final(s.events[id].row)
    ensures StaysPut(s, id) <==> Quiet(s.events[id])
  {
    var e := s.events[id];
    if Quiet(e) {
      forall steps | CanRun(s, steps)
        ensures id in After(s, steps).events && After(s, steps).events[id].row.status == e.row.status
      {
        QuietForever(s, steps, id);
      }
    } else {
      var steps := Disturb(s, id);
      assert CanRun(s, steps) && After(s, steps).events[id].row.status != e.row.status;
    }
  }

  /** The late write that overturns a final status. */
  lemma {:induction false} Disturb(s: State, id: nat) returns (steps: seq<Step>)
    requires Consistent(s) && id in s.events && Final(s.events[id].row) && !Quiet(s.events[id])
    ensures CanRun(s, steps) && id in After(s, steps).events
    ensures After(s, steps).events[id].row.status != s.events[id].row.status
  {
    var first := LateWrite(s.events[id], s.now);
    RunOne(s, At(id, first));
    steps := [At(id, first)];
    if first.Start? {
      var run := Run(LoadedView(s.events[id].row), s.events[id].job.since);
      RunTwo(s, At(id, Start), At(id, Succeed(run)));
      steps := [At(id, Start), At(id, Succeed(run))];
    }
  }

  lemma {:induction false} SomeIn<T>(m: multiset<T>) returns (x: T)
    requires |m| > 0
    ensures x in m
  {
    x :| x in m;
  }

  lemma {:induction false} LateWrite(e: Event, now: int) returns (a: Action)
    requires Accounted(e) && Final(e.row) && !Quiet(e)
    ensures Enabled(e, now, a)
    ensures if a.Start? then e.row.status.Failed? else Next(e, now, a).row.status != e.row.status
  {
    if Registered(e.row) && |e.dispatches| > 0 {
      var since := SomeIn(e.dispatches);
      a := AddFails(since, false);
    } else if |e.runs| > 0 {
      var run := SomeIn(e.runs);
      a := if e.row.status.Done? then Fail(run, 0.0) else Succeed(run);
    } else {
      a := Start;
    }
  }

  lemma {:induction false} RunOne(s: State, step: Step)
    requires CanStep(s, step)
    ensures CanRun(s, [step]) && After(s, [step]) == Take(s, step)
  {
    assert [step][..0] == [];
    assert CanRun(s, []) && After(s, []) == s;
  }

  lemma {:induction false} Extend(s: State, steps: seq<Step>, step: Step)
    requires CanRun(s, steps) && CanStep(After(s, steps), step)
    ensures CanRun(s, steps + [step]) && After(s, steps + [step]) == Take(After(s, steps), step)
  {
    assert (steps + [step])[..|steps|] == steps;
  }

  function Lone(e: Event, now: int): State { State(now, map[0 := e], map[], [e.row.request]) }

  lemma {:induction false} Perform(steps: seq<Step>, e: Event, now: int, a: Action) returns (more: seq<Step>, f: Event)
    requires CanRun(Initial(0), steps) && After(Initial(0), steps) == Lone(e, now) && Enabled(e, now, a)
    ensures more == steps + [At(0, a)] && f == Next(e, now, a)
    ensures CanRun(Initial(0), more) && After(Initial(0), more) == Lone(f, now)
  {
    more, f := steps + [At(0, a)], Next(e, now, a);
    Extend(Initial(0), steps, At(0, a));
    AccountedRequest(e, now, a);
  }

  lemma {:induction false} AccountedRequest(e: Event, now: int, a: Action)
    requires Enabled(e, now, a)
    ensures Next(e, now, a).row.request == e.row.request
  {
  }

  lemma {:induction false} OneEvent() returns (steps: seq<Step>, e: Event)
    ensures CanRun(Initial(0), steps) && After(Initial(0), steps) == Lone(e, 0)
    ensures e == Event(NewRow(Request("emails", None), 0), multiset{}, NoJob, multiset{}, 0, 0, 0, 0)
  {
    var r := Request("emails", None);
    e := Event(NewRow(r, 0), multiset{}, NoJob, multiset{}, 0, 0, 0, 0);
    RunTwo(Initial(0), Begin(0), Enqueue(0, r));
    Extend(Initial(0), [Begin(0), Enqueue(0, r)], Commit(0));
    var s := Take(Take(Initial(0), Begin(0)), Enqueue(0, r));
    assert s.open[0] == [r] && [r][..0] == [];
    assert InsertAll(s, [r]) == Insert(InsertAll(s, []), r);
    steps := [Begin(0), Enqueue(0, r)] + [Commit(0)];
    assert After(Initial(0), steps).open == map[];
    assert After(Initial(0), steps).events == map[0 := e];
  }

  /** A handler that outlives the stale window overturns DONE: its row is reclaimed and claimed
      again, a second run of the same job succeeds, and then the first run fails. */
  lemma {:induction false} LateFailureRevives() returns (steps: seq<Step>, late: Step)
    ensures CanRun(Initial(0), steps) && 0 in After(Initial(0), steps).events
    ensures After(Initial(0), steps).events[0].row.status.Done?
    ensures CanRun(Initial(0), steps + [late]) && 0 in After(Initial(0), steps + [late]).events
    ensures After(Initial(0), steps + [late]).events[0].row.status.Pending?
  {
    var run := Run(View(0, MAX_ATTEMPTS), 0);
    var e;
    steps, e := OneEvent();
    steps, e := Perform(steps, e, 0, Claim);
    steps, e := Perform(steps, e, 0, AddSucceeds(0));
    steps, e := Perform(steps, e, 0, Start);
    Extend(Initial(0), steps, Tick(STALE_MS + 1));
    steps := steps + [Tick(STALE_MS + 1)];
    var now := STALE_MS + 1;
    steps, e := Perform(steps, e, now, Reclaim);
    steps, e := Perform(steps, e, now, Claim);
    steps, e := Perform(steps, e, now, Start);
    steps, e := Perform(steps, e, now, Succeed(run));
    late := At(0, Fail(run, 0.0));
    var undone, f := Perform(steps, e, now, Fail(run, 0.0));
  }
}
