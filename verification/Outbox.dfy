/** The transactional outbox as a transition system: rows of the event table, claims held by
    relays, live jobs in the queues and handler runs in progress, interleaved freely. */
module Outbox {
  import opened Options
  import opened Resilience

  datatype Status = Pending | Processing | Done | Failed

  /** What a business transaction asks for; the key is the optional dedupeKey. */
  datatype Request = Request(queue: string, key: Option<string>)

  datatype Row = Row(request: Request, status: Status, attempts: nat, maxAttempts: nat, nextRunAt: int,
                     updatedAt: int, processedAt: Option<int>)

  /** What a handler run knows of its row: the columns it loaded before it started. */
  datatype View = View(attempts: nat, maxAttempts: nat)

  datatype Run = Run(view: View, since: int)

  /** A job is served once a run has written an outcome while the job was live. */
  datatype Job = NoJob | Live(since: int, served: bool)

  /** One event with everything in flight for it. The counters are history. */
  datatype Event = Event(row: Row, dispatches: multiset<int>, job: Job, runs: multiset<Run>,
                         started: nat, succeeded: nat, failed: nat, crashed: nat)

  datatype Action =
    | Reclaim
    | Claim
    | AddSucceeds(since: int)
    | AddFails(since: int, added: bool)
    | Park(since: int)
    | RelayCrash(since: int)
    | Start
    | Succeed(run: Run)
    | Fail(run: Run, random: real)
    | WorkerCrash(run: Run)
    | JobGone

  const MAX_ATTEMPTS := 8
  const STALE_MS := 5 * 60 * 1000
  const BASE_DELAY_MS := 1000
  const MAX_DELAY_MS := 5 * 60 * 1000
  const QUEUES := {"invoices", "emails", "courier", "cart"}

  /** The delay before a retry is below this many milliseconds. */
  function RetryCeiling(attempts: nat): (ms: nat)
    ensures 0 < ms <= MAX_DELAY_MS && ms <= BASE_DELAY_MS * Pow2(attempts)
    ensures ms == MAX_DELAY_MS || ms == BASE_DELAY_MS * Pow2(attempts)
  {
    Ceiling(BASE_DELAY_MS, MAX_DELAY_MS, attempts)
  }

  function RetryDelay(attempts: nat, random: real): (ms: nat)
    requires 0.0 <= random < 1.0
    ensures ms < RetryCeiling(attempts) && IsJitter(ms, random, RetryCeiling(attempts))
  {
    BackoffDelay(BASE_DELAY_MS, MAX_DELAY_MS, attempts, random)
  }

  // ---- the updates of a row -------------------------------------------------

  function NewRow(r: Request, now: int): Row
  {
    Row(r, Pending, 0, MAX_ATTEMPTS, now, now, None)
  }

  predicate Registered(row: Row) { row.request.queue in QUEUES }

  predicate IsStale(row: Row, now: int) { row.status.Processing? && row.updatedAt < now - STALE_MS }

  predicate IsDue(row: Row, now: int) { row.status.Pending? && row.nextRunAt <= now }

  function WithStatus(row: Row, status: Status, now: int): Row
  {
    row.(status := status, updatedAt := now)
  }

  function Succeeded(row: Row, now: int): Row
  {
    WithStatus(row, Done, now).(processedAt := Some(now))
  }

  /** onFailure: counts the attempt from the loaded columns, then parks or reschedules. */
  function AfterFailure(row: Row, view: View, random: real, now: int): Row
    requires 0.0 <= random < 1.0
  {
    var attempts := view.attempts + 1;
    if attempts >= view.maxAttempts then WithStatus(row, Failed, now).(attempts := attempts)
    else WithStatus(row, Pending, now).(attempts := attempts, nextRunAt := now + RetryDelay(view.attempts, random))
  }

  function LoadedView(row: Row): View { View(row.attempts, row.maxAttempts) }

  // ---- steps of one event ---------------------------------------------------

  predicate Enabled(e: Event, now: int, a: Action)
  {
    match a
    case Reclaim => IsStale(e.row, now)
    case Claim => IsDue(e.row, now)
    case AddSucceeds(since) => since in e.dispatches && Registered(e.row)
    case AddFails(since, _) => since in e.dispatches && Registered(e.row)
    case Park(since) => since in e.dispatches && !Registered(e.row)
    case RelayCrash(since) => since in e.dispatches
    case Start => e.job.Live?
    case Succeed(run) => run in e.runs
    case Fail(run, random) => run in e.runs && 0.0 <= random < 1.0
    case WorkerCrash(run) => run in e.runs
    case JobGone => e.job.Live?
  }

  /** The queue drops an add whose job id is still live. */
  function Added(job: Job, since: int): Job
  {
    if job.NoJob? then Live(since, false) else job
  }

  function Served(job: Job): Job
  {
    if job.NoJob? then NoJob else job.(served := true)
  }

  function Next(e: Event, now: int, a: Action): Event
    requires Enabled(e, now, a)
  {
    match a
    case Reclaim => e.(row := WithStatus(e.row, Pending, now))
    case Claim => e.(row := WithStatus(e.row, Processing, now), dispatches := e.dispatches + multiset{now})
    case AddSucceeds(since) => e.(dispatches := e.dispatches - multiset{since}, job := Added(e.job, since))
    case AddFails(since, added) =>
      e.(row := WithStatus(e.row, Pending, now), dispatches := e.dispatches - multiset{since},
         job := if added then Added(e.job, since) else e.job)
    case Park(since) => e.(row := WithStatus(e.row, Failed, now), dispatches := e.dispatches - multiset{since})
    case RelayCrash(since) => e.(dispatches := e.dispatches - multiset{since})
    case Start =>
      if e.row.status.Done? then e
      else e.(runs := e.runs + multiset{Run(LoadedView(e.row), e.job.since)}, started := e.started + 1)
    case Succeed(run) =>
      e.(row := Succeeded(e.row, now), runs := e.runs - multiset{run}, job := Served(e.job),
         succeeded := e.succeeded + 1)
    case Fail(run, random) =>
      e.(row := AfterFailure(e.row, run.view, random, now), runs := e.runs - multiset{run}, job := Served(e.job),
         failed := e.failed + 1)
    case WorkerCrash(run) => e.(runs := e.runs - multiset{run}, crashed := e.crashed + 1)
    case JobGone => e.(job := NoJob)
  }

  // ---- the whole system -----------------------------------------------------

  /** Rows are named by the position of their request among the committed ones. */
  datatype State = State(now: int, events: map<nat, Event>, open: map<nat, seq<Request>>, committed: seq<Request>)

  datatype Step =
    | Tick(ms: nat)
    | Begin(tx: nat)
    | Enqueue(tx: nat, request: Request)
    | Commit(tx: nat)
    | Rollback(tx: nat)
    | At(id: nat, action: Action)

  function Initial(now: int): State { State(now, map[], map[], []) }

  predicate CanStep(s: State, step: Step)
  {
    match step
    case Tick(_) => true
    case Begin(tx) => tx !in s.open
    case Enqueue(tx, _) => tx in s.open
    case Commit(tx) => tx in s.open
    case Rollback(tx) => tx in s.open
    case At(id, action) => id in s.events && Enabled(s.events[id], s.now, action)
  }

  predicate KeyTaken(s: State, key: Option<string>)
  {
    key.Some? && exists id | id in s.events :: s.events[id].row.request.key == key
  }

  /** createMany with skipDuplicates, for one row. */
  function Insert(s: State, r: Request): State
  {
    var event := Event(NewRow(r, s.now), multiset{}, NoJob, multiset{}, 0, 0, 0, 0);
    s.(events := if KeyTaken(s, r.key) then s.events else s.events[|s.committed| := event],
       committed := s.committed + [r])
  }

  function InsertAll(s: State, rs: seq<Request>): State
  {
    if rs == [] then s else Insert(InsertAll(s, rs[..|rs| - 1]), rs[|rs| - 1])
  }

  function Take(s: State, step: Step): State
    requires CanStep(s, step)
  {
    match step
    case Tick(ms) => s.(now := s.now + ms)
    case Begin(tx) => s.(open := s.open[tx := []])
    case Enqueue(tx, r) => s.(open := s.open[tx := s.open[tx] + [r]])
    case Commit(tx) => InsertAll(s, s.open[tx]).(open := s.open - {tx})
    case Rollback(tx) => s.(open := s.open - {tx})
    case At(id, action) => s.(events := s.events[id := Next(s.events[id], s.now, action)])
  }

  predicate CanRun(s: State, steps: seq<Step>)
    decreases |steps|, 0
  {
    steps == [] || (CanRun(s, steps[..|steps| - 1]) && CanStep(After(s, steps[..|steps| - 1]), steps[|steps| - 1]))
  }

  function After(s: State, steps: seq<Step>): State
    requires CanRun(s, steps)
    decreases |steps|, 1
  {
    if steps == [] then s else Take(After(s, steps[..|steps| - 1]), steps[|steps| - 1])
  }
}
