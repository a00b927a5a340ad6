/** The outbox when no relay, queued job or handler outlives the stale window, no add is
    reported failed after it took effect, and a job is served by one run at a time: it is not
    redelivered while a run of its event is in progress, nor once it has an outcome. */
module OutboxTimely {
  import opened Resilience
  import opened Outbox
  import opened OutboxProofs

  /** A job that a worker may still pick up for a first outcome. */
  predicate Waiting(job: Job) { job.Live? && !job.served }

  /** No run starts while one is in progress or once the job has its outcome, and an add that
      is reported failed did not take effect. */
  ghost predicate Timely(e: Event, a: Action)
  {
    match a
    case Start => Waiting(e.job) && e.runs == multiset{}
    case AddFails(_, added) => !added
    case _ => true
  }

  ghost predicate Prompt(e: Event, now: int)
  {
    && (forall since | since in e.dispatches :: since >= now - STALE_MS)
    && (forall run | run in e.runs :: run.since >= now - STALE_MS)
    && (Waiting(e.job) ==> e.job.since >= now - STALE_MS)
  }

  ghost predicate HasToken(e: Event)
  {
    |e.dispatches| > 0 || |e.runs| > 0 || Waiting(e.job)
  }

  /** At most one relay, queued job or handler run is busy with the event; it belongs to the
      claim that the row records, and it knows the row's attempts. */
  ghost predicate OneToken(e: Event)
  {
    && |e.dispatches| + |e.runs| <= 1
    && (|e.dispatches| > 0 ==> !Waiting(e.job))
    && (HasToken(e) ==> e.row.status.Processing?)
    && (forall since | since in e.dispatches :: since == e.row.updatedAt)
    && (forall run | run in e.runs :: run == Run(LoadedView(e.row), e.row.updatedAt))
    && (Waiting(e.job) ==> e.job.since == e.row.updatedAt)
  }

  /** The row's columns agree with what really happened. */
  ghost predicate Exact(e: Event)
  {
    && e.row.attempts == e.failed <= MAX_ATTEMPTS
    && (Registered(e.row) ==> (e.row.status.Failed? <==> e.failed == MAX_ATTEMPTS))
    && e.succeeded == (if e.row.status.Done? then 1 else 0)
  }

  ghost predicate InStep(e: Event) { Accounted(e) && OneToken(e) && Exact(e) }

  lemma {:induction false} TheOnly<T>(m: multiset<T>, x: T)
    requires |m| <= 1 && x in m
    ensures m - multiset{x} == multiset{} && |m| == 1
  {
    var rest := m - multiset{x};
    assert m == rest + multiset{x};
    assert |m| == |rest| + 1;
  }

  /** What is in flight is younger than the window, so a stale row has nothing in flight. */
  lemma {:induction false} StaleIsFree(e: Event, now: int)
    requires OneToken(e) && Prompt(e, now) && IsStale(e.row, now)
    ensures !HasToken(e)
  {
    if |e.dispatches| > 0 { var since := SomeIn(e.dispatches); }
    if |e.runs| > 0 { var run := SomeIn(e.runs); }
  }

  lemma {:induction false} OneTokenRelayStep(e: Event, now: int, a: Action)
    requires OneToken(e) && Prompt(e, now) && Enabled(e, now, a) && Timely(e, a)
    requires a.Reclaim? || a.Claim? || a.AddSucceeds? || a.AddFails? || a.Park? || a.RelayCrash?
    ensures OneToken(Next(e, now, a))
  {
    if a.Reclaim? {
      StaleIsFree(e, now);
    } else if !a.Claim? {
      TheOnly(e.dispatches, a.since);
    }
  }

  lemma {:induction false} OneTokenOutcome(e: Event, now: int, a: Action)
    requires OneToken(e) && Enabled(e, now, a)
    requires a.Succeed? || a.Fail? || a.WorkerCrash?
    ensures OneToken(Next(e, now, a))
  {
    TheOnly(e.runs, a.run);
    var f := Next(e, now, a);
    assert f.runs == multiset{} && f.dispatches == multiset{};
    assert !a.WorkerCrash? ==> !HasToken(f);
  }

  lemma {:induction false} OneTokenStart(e: Event, now: int, a: Action)
    requires OneToken(e) && Enabled(e, now, a) && Timely(e, a) && (a.Start? || a.JobGone?)
    ensures OneToken(Next(e, now, a))
  {
  }

  lemma {:induction false} ExactStep(e: Event, now: int, a: Action)
    requires InStep(e) && Prompt(e, now) && Enabled(e, now, a) && Timely(e, a)
    ensures Exact(Next(e, now, a))
  {
    if a.Reclaim? { StaleIsFree(e, now); }
  }

  lemma {:induction false} InStepNext(e: Event, now: int, a: Action)
    requires InStep(e) && Prompt(e, now) && Enabled(e, now, a) && Timely(e, a)
    ensures InStep(Next(e, now, a))
  {
    AccountedStep(e, now, a);
    if a.Succeed? || a.Fail? || a.WorkerCrash? {
      OneTokenOutcome(e, now, a);
    } else if a.Start? || a.JobGone? {
      OneTokenStart(e, now, a);
    } else {
      OneTokenRelayStep(e, now, a);
    }
    ExactStep(e, now, a);
  }

  /** A finished event is never written or run again. */
  lemma {:induction false} FinalNext(e: Event, now: int, a: Action)
    requires InStep(e) && Enabled(e, now, a) && Timely(e, a) && Final(e.row)
    ensures Next(e, now, a).row == e.row && Next(e, now, a).started == e.started
  {
    assert !HasToken(e);
  }

  /** Handler runs are bounded by the attempts allowed, plus one for every crash; a parked
      event with a registered queue has used exactly its attempts. */
  lemma {:induction false} RunsBounded(e: Event)
    requires InStep(e)
    ensures e.started <= MAX_ATTEMPTS + e.crashed
    ensures e.row.status.Failed? && Registered(e.row) ==> e.started == MAX_ATTEMPTS + e.crashed
    ensures e.row.status.Done? ==> e.started == e.row.attempts + 1 + e.crashed
  {
    assert Registered(e.row) || e.started == 0;
    assert e.row.status.Failed? || e.row.status.Done? ==> !HasToken(e);
  }

  // ---- whole runs -----------------------------------------------------------

  ghost predicate AllPrompt(s: State)
  {
    forall id | id in s.events :: Prompt(s.events[id], s.now)
  }

  ghost predicate TimelyRun(s: State, steps: seq<Step>)
    requires CanRun(s, steps)
  {
    && AllPrompt(After(s, steps))
    && (steps == [] ||
        var init, step := steps[..|steps| - 1], steps[|steps| - 1];
        TimelyRun(s, init) && (step.At? ==> Timely(After(s, init).events[step.id], step.action)))
  }

  ghost predicate AllInStep(s: State)
  {
    Consistent(s) && forall id | id in s.events :: InStep(s.events[id])
  }

  lemma {:induction false} AllInStepTake(s: State, step: Step)
    requires AllInStep(s) && AllPrompt(s) && CanStep(s, step)
    requires step.At? ==> Timely(s.events[step.id], step.action)
    ensures AllInStep(Take(s, step))
  {
    ConsistentStep(s, step);
    if step.At? { InStepNext(s.events[step.id], s.now, step.action); }
    if step.Commit? { NewEventsInStep(s, s.open[step.tx]); }
    forall id | id in Take(s, step).events ensures InStep(Take(s, step).events[id]) {
      if id in s.events && !(step.At? && step.id == id) { Untouched(s, step, id); }
    }
  }

  lemma {:induction false} NewEventInStep(s: State, r: Request)
    ensures forall i | i in Insert(s, r).events ::
              InStep(Insert(s, r).events[i]) || (i in s.events && Insert(s, r).events[i] == s.events[i])
  {
    var e := Event(NewRow(r, s.now), multiset{}, NoJob, multiset{}, 0, 0, 0, 0);
    assert InStep(e);
  }

  lemma {:induction false} NewEventsInStep(s: State, rs: seq<Request>)
    requires RowsAreRequests(s)
    ensures forall i | i in InsertAll(s, rs).events && i !in s.events :: InStep(InsertAll(s, rs).events[i])
  {
    if rs != [] {
      var before, after := InsertAll(s, rs[..|rs| - 1]), InsertAll(s, rs);
      NewEventsInStep(s, rs[..|rs| - 1]);
      NewEventInStep(before, rs[|rs| - 1]);
      forall i | i in after.events && i !in s.events ensures InStep(after.events[i]) {
        assert i in before.events && after.events[i] == before.events[i] ==> InStep(before.events[i]);
      }
    }
  }

  lemma {:induction false} TimelyKeeps(s: State, steps: seq<Step>)
    requires AllInStep(s) && CanRun(s, steps) && TimelyRun(s, steps)
    ensures AllInStep(After(s, steps))
  {
    if steps != [] {
      TimelyKeeps(s, steps[..|steps| - 1]);
      AllInStepTake(After(s, steps[..|steps| - 1]), steps[|steps| - 1]);
    }
  }

  lemma {:induction false} FinalForever(s: State, steps: seq<Step>, id: nat)
    requires AllInStep(s) && CanRun(s, steps) && TimelyRun(s, steps) && id in s.events && Final(s.events[id].row)
    ensures id in After(s, steps).events && After(s, steps).events[id].row == s.events[id].row
    ensures After(s, steps).events[id].started == s.events[id].started
  {
    if steps != [] {
      var before, step := After(s, steps[..|steps| - 1]), steps[|steps| - 1];
      FinalForever(s, steps[..|steps| - 1], id);
      TimelyKeeps(s, steps[..|steps| - 1]);
      if step.At? && step.id == id {
        FinalNext(before.events[id], before.now, step.action);
      } else {
        Untouched(before, step, id);
      }
    }
  }

  /** The clause on runs in progress is needed: at one moment, one live job that is served twice
      at once succeeds and then fails, and DONE becomes PENDING. */
  lemma {:induction false} OverlappingRunsRevive() returns (steps: seq<Step>, late: Step)
    ensures CanRun(Initial(0), steps + [late]) && After(Initial(0), steps + [late]).now == 0
    ensures CanRun(Initial(0), steps) && 0 in After(Initial(0), steps).events
    ensures After(Initial(0), steps).events[0].row.status.Done? && After(Initial(0), steps).events[0].started == 2
    ensures 0 in After(Initial(0), steps + [late]).events
    ensures After(Initial(0), steps + [late]).events[0].row.status.Pending?
  {
    var run := Run(View(0, MAX_ATTEMPTS), 0);
    var e;
    steps, e := OneEvent();
    steps, e := Perform(steps, e, 0, Claim);
    steps, e := Perform(steps, e, 0, AddSucceeds(0));
    steps, e := Perform(steps, e, 0, Start);
    steps, e := Perform(steps, e, 0, Start);
    steps, e := Perform(steps, e, 0, Succeed(run));
    late := At(0, Fail(run, 0.0));
    var undone, f := Perform(steps, e, 0, Fail(run, 0.0));
  }

  /** Every timely run, from the empty table: DONE and FAILED rows are never written again,
      attempts never exceed the maximum, an event succeeds at most once, and without crashes
      its handler runs at most as often as it has attempts. */
  lemma {:induction false} EveryTimelyRun(now: int, steps: seq<Step>, more: seq<Step>, id: nat)
    requires CanRun(Initial(now), steps) && TimelyRun(Initial(now), steps)
    requires var s := After(Initial(now), steps);
             id in s.events && CanRun(s, more) && TimelyRun(s, more)
    ensures var s := After(Initial(now), steps);
            && id in After(s, more).events
            && var e, f := s.events[id], After(s, more).events[id];
               && e.row.attempts <= 8 && e.succeeded <= 1
               && e.started <= 8 + e.crashed
               && (Final(e.row) ==> f.row == e.row && f.started == e.started)
  {
    var s := After(Initial(now), steps);
    TimelyKeeps(Initial(now), steps);
    RunsBounded(s.events[id]);
    StillThere(s, more, id);
    if Final(s.events[id].row) { FinalForever(s, more, id); }
  }

  lemma {:induction false} StillThere(s: State, steps: seq<Step>, id: nat)
    requires Consistent(s) && CanRun(s, steps) && id in s.events
    ensures Consistent(After(s, steps)) && id in After(s, steps).events
  {
    if steps != [] {
      var before, step := After(s, steps[..|steps| - 1]), steps[|steps| - 1];
      StillThere(s, steps[..|steps| - 1], id);
      ConsistentStep(before, step);
      if !(step.At? && step.id == id) { Untouched(before, step, id); }
    }
  }

  // ---- the retry schedule ---------------------------------------------------

  /** The ceiling of a retry: a second, doubled for each attempt before, and never above five minutes. */
  lemma {:induction false} RetryCeilingIs(pow: nat -> nat, attempts: nat)
    requires pow(0) == 1 && forall k: nat :: pow(k + 1) == 2 * pow(k)
    ensures RetryCeiling(attempts) == if 1000 * pow(attempts) < 300_000 then 1000 * pow(attempts) else 300_000
  {
    PowersAgree(pow, attempts);
  }

  /** A failed run that is retried waits less than min(300000, 1000 * 2^a) ms for the a it
      loaded, and is not claimed earlier. With eight attempts no wait reaches 64 seconds, so
      the five-minute cap is never applied. */
  lemma {:induction false} RetrySchedule(e: Event, now: int, run: Run, random: real)
    requires Accounted(e) && Enabled(e, now, Fail(run, random))
    ensures var f := Next(e, now, Fail(run, random));
            f.row.status.Pending? ==>
              && now <= f.row.nextRunAt < now + RetryCeiling(run.view.attempts) <= now + 64_000
              && IsJitter(f.row.nextRunAt - now, random, 1000 * Pow2(run.view.attempts))
              && forall t | Enabled(f, t, Claim) :: t >= f.row.nextRunAt
  {
    if run.view.attempts + 1 < MAX_ATTEMPTS {
      Pow2Monotone(run.view.attempts, 6);
      assert Pow2(6) == 2 * Pow2(5) && Pow2(5) == 2 * Pow2(4) && Pow2(4) == 2 * Pow2(3) && Pow2(3) == 8;
    }
  }
}
