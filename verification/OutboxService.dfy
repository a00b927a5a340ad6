/** The event table with enqueue, the relay's pump and the workers' envelope as its methods,
    each shown to be a run of the transition system. */
module OutboxService {
  import opened Options
  import opened Resilience
  import opened Outbox
  import opened OutboxProofs

  const BATCH_SIZE := 50

  ghost predicate NoRepeats(ids: seq<nat>)
  {
    forall i, j | 0 <= i < j < |ids| :: ids[i] != ids[j]
  }

  /** Rows the database may hand to one claim: due, distinct, at most a batch. Rows locked by
      another relay are skipped, so any such selection can occur. */
  ghost predicate DueBatch(rows: map<nat, Row>, batch: seq<nat>, now: int)
  {
    && |batch| <= BATCH_SIZE
    && NoRepeats(batch)
    && forall id | id in batch :: id in rows && IsDue(rows[id], now)
  }

  /** A claimed row after the pump has tried to add its job. */
  function Pumped(row: Row, rejected: bool, now: int): Row
  {
    if !Registered(row) then WithStatus(row, Failed, now)
    else if rejected then WithStatus(row, Pending, now)
    else WithStatus(row, Processing, now)
  }

  function PumpedRows(rows: map<nat, Row>, batch: seq<nat>, rejected: set<nat>, now: int): map<nat, Row>
  {
    map id | id in rows :: if id in batch then Pumped(rows[id], id in rejected, now) else rows[id]
  }

  function ClaimedRows(rows: map<nat, Row>, batch: seq<nat>, now: int): map<nat, Row>
  {
    map id | id in rows :: if id in batch then WithStatus(rows[id], Processing, now) else rows[id]
  }

  function ReclaimedRows(rows: map<nat, Row>, now: int): map<nat, Row>
  {
    map id | id in rows :: if IsStale(rows[id], now) then WithStatus(rows[id], Pending, now) else rows[id]
  }

  /** The unique index on dedupeKey. */
  ghost predicate KeysUnique(rows: map<nat, Row>)
  {
    forall i, j | i in rows && j in rows && i != j && rows[i].request.key.Some? ::
      rows[i].request.key != rows[j].request.key
  }

  ghost function WithKey(rows: map<nat, Row>, key: string): set<nat>
  {
    set id | id in rows && rows[id].request.key == Some(key)
  }

  class EventTable {
    var rows: map<nat, Row>
    var jobs: set<nat>
    var running: bool

    constructor ()
      ensures rows == map[] && jobs == {} && !running
    {
      rows, jobs, running := map[], {}, false;
    }

    /** Inserts a row unless its key is taken; the id is a fresh uuid. However often a key is
        enqueued, exactly one row carries it, and rows already there are never touched. */
    method Enqueue(id: nat, r: Request, now: int) returns (inserted: bool)
      requires id !in rows
      modifies this`rows
      ensures inserted <==> r.key.None? || forall i | i in old(rows) :: old(rows)[i].request.key != r.key
      ensures rows == if inserted then old(rows)[id := NewRow(r, now)] else old(rows)
      ensures inserted ==> rows[id] == Row(r, Pending, 0, 8, now, now, None)
      ensures KeysUnique(old(rows)) ==>
                && KeysUnique(rows)
                && (r.key.Some? ==> |WithKey(rows, r.key.value)| == 1)
                && (forall key: string | r.key != Some(key) :: WithKey(rows, key) == WithKey(old(rows), key))
    {
      inserted := r.key.None? || forall i | i in rows :: rows[i].request.key != r.key;
      if inserted { rows := rows[id := NewRow(r, now)]; }
      if r.key.Some? && KeysUnique(old(rows)) {
        assert r.key == Some(r.key.value);
        assert exists i | i in rows :: rows[i].request.key == r.key by { assert inserted ==> id in rows; }
        OneRowPerKey(rows, r.key.value);
      }
    }

    /** No row is stale afterwards; exactly the stale ones have moved, and only their status. */
    method ReclaimStale(now: int)
      modifies this`rows
      ensures rows == ReclaimedRows(old(rows), now)
      ensures rows.Keys == old(rows).Keys && forall id | id in rows ::
                && !IsStale(rows[id], now)
                && (rows[id] != old(rows)[id] <==>
                      old(rows)[id].status.Processing? && old(rows)[id].updatedAt < now - 300_000)
                && rows[id] == old(rows)[id].(status := rows[id].status, updatedAt := rows[id].updatedAt)
                && (IsStale(old(rows)[id], now) ==> rows[id].status.Pending? && rows[id].updatedAt == now)
    {
      rows := map id | id in rows :: if IsStale(rows[id], now) then WithStatus(rows[id], Pending, now) else rows[id];
    }

    /** Claims the batch, then adds one job per row: parked, returned, or left to its worker. */
    method DispatchBatch(batch: seq<nat>, rejected: set<nat>, now: int)
      requires DueBatch(rows, batch, now)
      modifies this`rows, this`jobs
      ensures rows == PumpedRows(old(rows), batch, rejected, now)
      ensures forall id | id in batch ::
                && rows[id] == old(rows)[id].(status := rows[id].status, updatedAt := now)
                && (rows[id].status.Failed? <==>
                      old(rows)[id].request.queue !in {"invoices", "emails", "courier", "cart"})
                && (rows[id].status.Processing? <==> !rows[id].status.Failed? && id !in rejected)
                && (rows[id].status.Pending? <==> !rows[id].status.Failed? && id in rejected)
      ensures forall id :: id in jobs <==>
                id in old(jobs) || (id in batch && Registered(old(rows)[id]) && id !in rejected)
    {
      ghost var before := rows;
      rows := map id | id in rows :: if id in batch then WithStatus(rows[id], Processing, now) else rows[id];
      for i := 0 to |batch|
        invariant rows.Keys == before.Keys
        invariant forall id | id in rows ::
                    rows[id] == if id in batch[..i] then Pumped(before[id], id in rejected, now)
                                else ClaimedRows(before, batch, now)[id]
        invariant forall id :: id in jobs <==>
                    id in old(jobs) || (id in batch[..i] && Registered(before[id]) && id !in rejected)
      {
        var id := batch[i];
        assert batch[..i + 1] == batch[..i] + [id];
        assert id !in batch[..i];
        if !Registered(rows[id]) {
          rows := rows[id := WithStatus(rows[id], Failed, now)];
        } else if id in rejected {
          rows := rows[id := WithStatus(rows[id], Pending, now)];
        } else {
          jobs := jobs + {id};
        }
      }
      assert batch[..|batch|] == batch;
    }

    /** One tick of the relay; a tick that finds another running does nothing. */
    method Relay(batch: seq<nat>, rejected: set<nat>, now: int)
      requires !running ==> DueBatch(ReclaimedRows(rows, now), batch, now)
      modifies this
      ensures running == old(running)
      ensures rows == if old(running) then old(rows)
                      else PumpedRows(ReclaimedRows(old(rows), now), batch, rejected, now)
      ensures old(running) ==> jobs == old(jobs)
      ensures !old(running) ==> forall id :: id in jobs <==>
                id in old(jobs)
                || (id in batch && id in old(rows) && Registered(old(rows)[id]) && id !in rejected)
    {
      if running { return; }
      running := true;
      ReclaimStale(now);
      DispatchBatch(batch, rejected, now);
      running := false;
    }

    /** What a worker loads: nothing for a missing row or one already DONE. */
    method Load(id: nat) returns (view: Option<View>)
      ensures view == if id in rows && !rows[id].status.Done? then Some(LoadedView(rows[id])) else None
    {
      if id !in rows { return None; }
      if rows[id].status.Done? { return None; }
      view := Some(LoadedView(rows[id]));
    }

    /** The outcome of a handler run that loaded the given view, written without a guard. */
    method Settle(id: nat, view: View, succeeded: bool, random: real, now: int)
      requires id in rows && 0.0 <= random < 1.0
      modifies this`rows
      ensures rows == old(rows)[id := if succeeded then Succeeded(old(rows)[id], now)
                                      else AfterFailure(old(rows)[id], view, random, now)]
    {
      if succeeded {
        rows := rows[id := rows[id].(status := Done, updatedAt := now, processedAt := Some(now))];
      } else {
        OnFailure(id, view, random, now);
      }
    }

    method OnFailure(id: nat, view: View, random: real, now: int)
      requires id in rows && 0.0 <= random < 1.0
      modifies this`rows
      ensures rows == old(rows)[id := AfterFailure(old(rows)[id], view, random, now)]
      ensures rows[id] == old(rows)[id].(status := rows[id].status, attempts := view.attempts + 1,
                                         nextRunAt := rows[id].nextRunAt, updatedAt := now)
      ensures rows[id].status.Failed? <==> rows[id].attempts >= view.maxAttempts
      ensures !rows[id].status.Failed? ==>
                && rows[id].status.Pending? && now <= rows[id].nextRunAt < now + RetryCeiling(view.attempts)
                && IsJitter(rows[id].nextRunAt - now, random, RetryCeiling(view.attempts))
    {
      var attempts := view.attempts + 1;
      if attempts >= view.maxAttempts {
        rows := rows[id := rows[id].(status := Failed, attempts := attempts, updatedAt := now)];
        return;
      }
      var delay := RetryDelay(view.attempts, random);
      rows := rows[id := rows[id].(status := Pending, attempts := attempts,
                                      nextRunAt := now + delay, updatedAt := now)];
    }

    /** A worker's whole job when nothing else touches the row meanwhile. */
    method Process(id: nat, succeeds: bool, random: real, now: int) returns (ran: bool)
      requires 0.0 <= random < 1.0
      modifies this`rows
      ensures ran <==> id in old(rows) && !old(rows)[id].status.Done?
      ensures rows == if !ran then old(rows) else old(rows)[id := Processed(old(rows)[id], succeeds, random, now)]
      ensures ran && succeeds ==>
                rows[id] == old(rows)[id].(status := Done, updatedAt := now, processedAt := Some(now))
    {
      var view := Load(id);
      ran := view.Some?;
      if ran { Settle(id, view.value, succeeds, random, now); }
    }
  }

  lemma {:induction false} OneRowPerKey(rows: map<nat, Row>, key: string)
    requires KeysUnique(rows) && exists id | id in rows :: rows[id].request.key == Some(key)
    ensures |WithKey(rows, key)| == 1
  {
    var id :| id in rows && rows[id].request.key == Some(key);
    assert WithKey(rows, key) == {id};
  }

  // ---- the pump as a run ----------------------------------------------------

  /** What the pump does with a row it has just claimed. */
  function AddAction(row: Row, rejected: bool, now: int): Action
  {
    if !Registered(row) then Park(now) else if rejected then AddFails(now, false) else AddSucceeds(now)
  }

  /** One step for each id, in order. */
  ghost function StepsOf(ids: seq<nat>, action: nat -> Action): (steps: seq<Step>)
    ensures |steps| == |ids|
  {
    if ids == [] then [] else StepsOf(ids[..|ids| - 1], action) + [At(ids[|ids| - 1], action(ids[|ids| - 1]))]
  }

  ghost predicate AllEnabled(s: State, ids: seq<nat>, action: nat -> Action)
  {
    forall id | id in ids :: id in s.events && Enabled(s.events[id], s.now, action(id))
  }

  ghost function Stepped(s: State, ids: seq<nat>, action: nat -> Action): State
    requires AllEnabled(s, ids, action)
  {
    s.(events := map id | id in s.events :: if id in ids then Next(s.events[id], s.now, action(id)) else s.events[id])
  }

  /** Distinct events may take one enabled step each at one moment, as if all at once. */
  lemma {:induction false} IndependentSteps(s: State, ids: seq<nat>, action: nat -> Action)
    requires NoRepeats(ids) && AllEnabled(s, ids, action)
    ensures CanRun(s, StepsOf(ids, action)) && After(s, StepsOf(ids, action)) == Stepped(s, ids, action)
  {
    var steps := StepsOf(ids, action);
    if ids == [] {
      assert Stepped(s, ids, action).events == s.events;
    } else {
      var init, id := ids[..|ids| - 1], ids[|ids| - 1];
      assert ids == init + [id] && id !in init && id in ids;
      assert AllEnabled(s, init, action) by { assert forall i | i in init :: i in ids; }
      IndependentSteps(s, init, action);
      assert steps[..|steps| - 1] == StepsOf(init, action);
      StepLast(s, init, id, action);
    }
  }

  lemma {:induction false} StepLast(s: State, init: seq<nat>, id: nat, action: nat -> Action)
    requires id !in init && AllEnabled(s, init + [id], action) && AllEnabled(s, init, action)
    ensures var t := Stepped(s, init, action);
            CanStep(t, At(id, action(id))) && Take(t, At(id, action(id))) == Stepped(s, init + [id], action)
  {
    var t := Stepped(s, init, action);
    assert id in init + [id];
    assert t.events[id] == s.events[id];
    assert Take(t, At(id, action(id))).events == Stepped(s, init + [id], action).events;
  }

  ghost function RowsOf(s: State): map<nat, Row>
  {
    map id | id in s.events :: s.events[id].row
  }

  ghost function Claiming(): nat -> Action
  {
    id => Claim
  }

  ghost function Adding(s: State, rejected: set<nat>): nat -> Action
  {
    id => if id in s.events then AddAction(s.events[id].row, id in rejected, s.now) else Claim
  }

  ghost function BatchSteps(s: State, batch: seq<nat>, rejected: set<nat>): seq<Step>
  {
    StepsOf(batch, Claiming()) + StepsOf(batch, Adding(s, rejected))
  }

  /** The whole batch, claimed at once and then added, is a run of single steps, and it leaves
      the rows as DispatchBatch does. */
  lemma {:induction false} BatchIsARun(s: State, batch: seq<nat>, rejected: set<nat>)
    requires DueBatch(RowsOf(s), batch, s.now)
    ensures CanRun(s, BatchSteps(s, batch, rejected))
    ensures RowsOf(After(s, BatchSteps(s, batch, rejected))) == PumpedRows(RowsOf(s), batch, rejected, s.now)
  {
    assert AllEnabled(s, batch, Claiming());
    IndependentSteps(s, batch, Claiming());
    var t := Stepped(s, batch, Claiming());
    PumpAll(s, batch, rejected);
    IndependentSteps(t, batch, Adding(s, rejected));
    RunJoins(s, StepsOf(batch, Claiming()), StepsOf(batch, Adding(s, rejected)));
  }

  lemma {:induction false} PumpAll(s: State, batch: seq<nat>, rejected: set<nat>)
    requires DueBatch(RowsOf(s), batch, s.now) && AllEnabled(s, batch, Claiming())
    ensures var t := Stepped(s, batch, Claiming());
            && AllEnabled(t, batch, Adding(s, rejected))
            && RowsOf(Stepped(t, batch, Adding(s, rejected))) == PumpedRows(RowsOf(s), batch, rejected, s.now)
  {
    forall id | id in batch
      ensures var claimed, add := Next(s.events[id], s.now, Claim), Adding(s, rejected)(id);
              Enabled(claimed, s.now, add)
              && Next(claimed, s.now, add).row == Pumped(s.events[id].row, id in rejected, s.now)
    {
      PumpOne(s.events[id], id in rejected, s.now);
    }
  }

  lemma {:induction false} PumpOne(e: Event, rejected: bool, now: int)
    requires IsDue(e.row, now)
    ensures var claimed := Next(e, now, Claim);
            Enabled(claimed, now, AddAction(e.row, rejected, now))
            && Next(claimed, now, AddAction(e.row, rejected, now)).row == Pumped(e.row, rejected, now)
  {
  }

  // ---- a tick and a job as runs -----------------------------------------------

  lemma {:induction false} ListOut(ids: set<nat>) returns (list: seq<nat>)
    ensures NoRepeats(list) && forall id :: id in list <==> id in ids
  {
    if ids == {} {
      list := [];
    } else {
      var id :| id in ids;
      var rest := ListOut(ids - {id});
      list := rest + [id];
    }
  }

  ghost function Reclaiming(): nat -> Action
  {
    id => Reclaim
  }

  /** Reclaiming every stale row at once is a run of single steps, one for each stale row. */
  lemma {:induction false} ReclaimIsARun(s: State) returns (steps: seq<Step>)
    ensures CanRun(s, steps) && After(s, steps).now == s.now
    ensures RowsOf(After(s, steps)) == ReclaimedRows(RowsOf(s), s.now)
  {
    var stale := ListOut(set id | id in s.events && IsStale(s.events[id].row, s.now));
    assert AllEnabled(s, stale, Reclaiming());
    IndependentSteps(s, stale, Reclaiming());
    steps := StepsOf(stale, Reclaiming());
  }

  /** A whole tick of the relay is a run, and it leaves the rows as Relay does. */
  lemma {:induction false} TickIsARun(s: State, batch: seq<nat>, rejected: set<nat>) returns (steps: seq<Step>)
    requires DueBatch(ReclaimedRows(RowsOf(s), s.now), batch, s.now)
    ensures CanRun(s, steps)
    ensures RowsOf(After(s, steps)) == PumpedRows(ReclaimedRows(RowsOf(s), s.now), batch, rejected, s.now)
  {
    steps := ReclaimIsARun(s);
    var t := After(s, steps);
    BatchIsARun(t, batch, rejected);
    RunJoins(s, steps, BatchSteps(t, batch, rejected));
    steps := steps + BatchSteps(t, batch, rejected);
  }

  /** How the handler run that has just started ends. */
  function Outcome(e: Event, succeeds: bool, random: real): Action
    requires e.job.Live?
  {
    var run := Run(LoadedView(e.row), e.job.since);
    if succeeds then Succeed(run) else Fail(run, random)
  }

  /** What Process leaves of a row that is not DONE. */
  function Processed(row: Row, succeeds: bool, random: real, now: int): Row
    requires 0.0 <= random < 1.0
  {
    if succeeds then Succeeded(row, now) else AfterFailure(row, LoadedView(row), random, now)
  }

  lemma {:induction false} JobOnEvent(e: Event, now: int, succeeds: bool, random: real)
    requires e.job.Live? && !e.row.status.Done? && 0.0 <= random < 1.0
    ensures Enabled(Next(e, now, Start), now, Outcome(e, succeeds, random))
    ensures var after := Next(Next(e, now, Start), now, Outcome(e, succeeds, random));
            after.row == Processed(e.row, succeeds, random, now) && after.runs == e.runs
            && after.started == e.started + 1
  {
    var run := Run(LoadedView(e.row), e.job.since);
    assert e.runs + multiset{run} - multiset{run} == e.runs;
  }

  lemma {:induction false} TwoSteps(s: State, id: nat, a: Action, b: Action)
    requires id in s.events && Enabled(s.events[id], s.now, a) && Enabled(Next(s.events[id], s.now, a), s.now, b)
    ensures CanRun(s, [At(id, a), At(id, b)])
    ensures After(s, [At(id, a), At(id, b)])
         == s.(events := s.events[id := Next(Next(s.events[id], s.now, a), s.now, b)])
  {
    var e := Next(s.events[id], s.now, a);
    RunTwo(s, At(id, a), At(id, b));
    assert s.events[id := e][id := Next(e, s.now, b)] == s.events[id := Next(e, s.now, b)];
  }

  lemma {:induction false} RowChanged(s: State, id: nat, e: Event)
    ensures RowsOf(s.(events := s.events[id := e])) == RowsOf(s)[id := e.row]
  {
  }

  /** An undisturbed job is a run of one handler, and leaves the row as Process does. */
  lemma {:induction false} ProcessIsARun(s: State, id: nat, succeeds: bool, random: real)
    requires id in s.events && s.events[id].job.Live? && !s.events[id].row.status.Done? && 0.0 <= random < 1.0
    ensures var steps := [At(id, Start), At(id, Outcome(s.events[id], succeeds, random))];
            && CanRun(s, steps)
            && RowsOf(After(s, steps)) == RowsOf(s)[id := Processed(s.events[id].row, succeeds, random, s.now)]
  {
    var outcome := Outcome(s.events[id], succeeds, random);
    JobOnEvent(s.events[id], s.now, succeeds, random);
    TwoSteps(s, id, Start, outcome);
    RowChanged(s, id, Next(Next(s.events[id], s.now, Start), s.now, outcome));
  }

  /** A committed request enters the transition system as Enqueue puts it in the table. */
  lemma {:induction false} InsertIsEnqueue(s: State, r: Request)
    requires RowsAreRequests(s)
    ensures KeyTaken(s, r.key) <==> r.key.Some? && WithKey(RowsOf(s), r.key.value) != {}
    ensures |s.committed| !in RowsOf(s) && RowsOf(Insert(s, r)) ==
              if KeyTaken(s, r.key) then RowsOf(s) else RowsOf(s)[|s.committed| := NewRow(r, s.now)]
  {
    if KeyTaken(s, r.key) {
      var id :| id in s.events && s.events[id].row.request.key == r.key;
      assert id in WithKey(RowsOf(s), r.key.value);
    }
  }

  /** At most one row carries a key, in every run. */
  lemma {:induction false} KeysStayUnique(now: int, steps: seq<Step>)
    requires CanRun(Initial(now), steps)
    ensures KeysUnique(RowsOf(After(Initial(now), steps)))
  {
    EveryRunConsistent(now, steps);
    var s := After(Initial(now), steps);
    forall i, j | i in s.events && j in s.events && i < j && s.events[i].row.request.key.Some?
      ensures s.events[i].row.request.key != s.events[j].row.request.key
    {
      assert Kept(s.committed, j);
    }
  }
}
