/** The monthly compliance report and the conservation law between its counts. */
module GrievanceReport {
  import opened Options
  import opened Rounding
  import opened Sums
  import opened Grievance
  import opened GrievanceProofs

  function One(b: bool): int { if b then 1 else 0 }

  /** COUNT(*) with a condition. */
  function Count(ledger: seq<Ticket>, holds: Ticket -> bool): int
  {
    Sum(ledger, Counting(holds))
  }

  function Counting(holds: Ticket -> bool): Ticket -> int
  {
    (t: Ticket) => One(holds(t))
  }

  predicate Within(at: Option<int>, start: int, end: int) { at.Some? && start <= at.value < end }

  /** Created before a moment and not resolved before it. */
  function Backlog(at: int): Ticket -> bool
  {
    (t: Ticket) => t.createdAt < at && (t.resolvedAt.None? || t.resolvedAt.value >= at)
  }

  function Received(start: int, end: int): Ticket -> bool { (t: Ticket) => start <= t.createdAt < end }
  function ResolvedIn(start: int, end: int): Ticket -> bool { (t: Ticket) => Within(t.resolvedAt, start, end) }
  function ClosedIn(start: int, end: int): Ticket -> bool { (t: Ticket) => Within(t.closedAt, start, end) }
  function EscalatedIn(start: int, end: int): Ticket -> bool { (t: Ticket) => Within(t.escalatedAt, start, end) }

  /** Resolved late: after the deadline. */
  function LateIn(start: int, end: int): Ticket -> bool
  {
    (t: Ticket) => Within(t.resolvedAt, start, end) && t.resolvedAt.value > t.slaDueAt
  }

  /** Rows whose stamps run backwards across the month: received in it but resolved before it,
      and resolved in it but created after it. */
  function ResolvedTooEarly(start: int, end: int): Ticket -> bool
  {
    (t: Ticket) => start <= t.createdAt < end && t.resolvedAt.Some? && t.resolvedAt.value < start
  }

  function CreatedTooLate(start: int, end: int): Ticket -> bool
  {
    (t: Ticket) => Within(t.resolvedAt, start, end) && t.createdAt >= end
  }

  lemma {:induction false} OneMoreTicket(ledger: seq<Ticket>, t: Ticket, holds: Ticket -> bool)
    ensures Count(ledger + [t], holds) == Count(ledger, holds) + One(holds(t))
  {
    SumSnoc(ledger, t, Counting(holds));
  }

  /** For any rows at all: the four counts differ from balance by exactly the two kinds of
      backward rows. */
  lemma {:induction false} ExactBalance(ledger: seq<Ticket>, start: int, end: int)
    requires start <= end
    ensures Count(ledger, Backlog(start)) + Count(ledger, Received(start, end))
            == Count(ledger, ResolvedIn(start, end)) + Count(ledger, Backlog(end))
               + Count(ledger, ResolvedTooEarly(start, end)) - Count(ledger, CreatedTooLate(start, end))
  {
    if ledger != [] {
      var init, t := ledger[..|ledger| - 1], ledger[|ledger| - 1];
      ExactBalance(init, start, end);
      assert ledger == init + [t];
      OneMoreTicket(init, t, Backlog(start));
      OneMoreTicket(init, t, Received(start, end));
      OneMoreTicket(init, t, ResolvedIn(start, end));
      OneMoreTicket(init, t, Backlog(end));
      OneMoreTicket(init, t, ResolvedTooEarly(start, end));
      OneMoreTicket(init, t, CreatedTooLate(start, end));
    }
  }

  ghost predicate IsLedgerOf(ledger: seq<Ticket>, s: State)
  {
    forall t | t in ledger :: exists id | id in s.tickets :: s.tickets[id] == t
  }

  /** Every ledger the operations can produce balances, in every month. */
  lemma {:induction false} ReachableBalance(now: int, steps: seq<Step>, ledger: seq<Ticket>, start: int, end: int)
    requires start <= end && CanRun(Initial(now), steps) && IsLedgerOf(ledger, After(Initial(now), steps))
    ensures Count(ledger, Backlog(start)) + Count(ledger, Received(start, end))
            == Count(ledger, ResolvedIn(start, end)) + Count(ledger, Backlog(end))
  {
    RunSound(Initial(now), steps, 0);
    ExactBalance(ledger, start, end);
    forall t | t in ledger ensures !ResolvedTooEarly(start, end)(t) && !CreatedTooLate(start, end)(t) {
      assert Good(t, After(Initial(now), steps).now);
    }
    SumZero(ledger, Counting(ResolvedTooEarly(start, end)));
    SumZero(ledger, Counting(CreatedTooLate(start, end)));
  }

  function SumOver(bounds: seq<int>, ledger: seq<Ticket>, holds: (int, int) -> Ticket -> bool): int
  {
    if |bounds| < 2 then 0
    else SumOver(bounds[..|bounds| - 1], ledger, holds)
         + Count(ledger, holds(bounds[|bounds| - 2], bounds[|bounds| - 1]))
  }

  function ReceivedPer(): (int, int) -> Ticket -> bool { (a: int, b: int) => Received(a, b) }
  function ResolvedPer(): (int, int) -> Ticket -> bool { (a: int, b: int) => ResolvedIn(a, b) }

  /** One month's pending is the next month's opening backlog, so over any run of consecutive
      months the first backlog and everything received equal everything resolved and what is left. */
  lemma {:induction false} MonthsTelescope(now: int, steps: seq<Step>, ledger: seq<Ticket>, bounds: seq<int>)
    requires CanRun(Initial(now), steps) && IsLedgerOf(ledger, After(Initial(now), steps))
    requires |bounds| > 0 && forall i | 0 < i < |bounds| :: bounds[i - 1] <= bounds[i]
    ensures Count(ledger, Backlog(bounds[0])) + SumOver(bounds, ledger, ReceivedPer())
            == SumOver(bounds, ledger, ResolvedPer()) + Count(ledger, Backlog(bounds[|bounds| - 1]))
  {
    if |bounds| > 1 {
      MonthsTelescope(now, steps, ledger, bounds[..|bounds| - 1]);
      ReachableBalance(now, steps, ledger, bounds[|bounds| - 2], bounds[|bounds| - 1]);
    }
  }

  datatype Report = Report(openingBacklog: int, received: int, resolved: int, closed: int, escalated: int, pending: int,
                           slaBreached: int, slaComplianceRate: Option<int>, avgResolutionHours: Option<int>,
                           byCategory: map<string, int>, byStatus: map<Status, int>)

  function HoursOpen(): Ticket -> real
  {
    (t: Ticket) => if t.resolvedAt.Some? then (t.resolvedAt.value - t.createdAt) as real / HOUR_MS as real else 0.0
  }

  function Matching(ledger: seq<Ticket>, holds: Ticket -> bool): (rows: seq<Ticket>)
    ensures |rows| == Count(ledger, holds)
    ensures forall t | t in rows :: t in ledger && holds(t)
  {
    if ledger == [] then []
    else
      var init, t := ledger[..|ledger| - 1], ledger[|ledger| - 1];
      assert ledger == init + [t];
      if holds(t) then Matching(init, holds) + [t] else Matching(init, holds)
  }

  lemma {:induction false} MatchingCounts(ledger: seq<Ticket>, holds: Ticket -> bool, also: Ticket -> bool,
                                          both: Ticket -> bool)
    requires forall t | t in ledger :: both(t) <==> holds(t) && also(t)
    ensures Count(Matching(ledger, holds), also) == Count(ledger, both)
  {
    if ledger != [] {
      var init, t := ledger[..|ledger| - 1], ledger[|ledger| - 1];
      assert ledger == init + [t];
      MatchingCounts(init, holds, also, both);
      OneMoreTicket(init, t, both);
      OneMoreTicket(Matching(init, holds), t, also);
    }
  }

  function Late(): Ticket -> bool { (t: Ticket) => t.resolvedAt.Some? && t.resolvedAt.value > t.slaDueAt }

  /** Hundredths of a percent of the resolved tickets that met their deadline. */
  function ComplianceRate(resolved: nat, breached: nat): (rate: int)
    requires breached <= resolved && resolved > 0
    ensures 0 <= rate <= 10000
    ensures breached == 0 ==> rate == 10000
    ensures breached == resolved ==> rate == 0
  {
    RatioWithin(resolved - breached, resolved);
    HalfUp((resolved - breached) as real / resolved as real * 10000.0)
  }

  lemma {:induction false} RatioWithin(part: nat, whole: nat)
    requires part <= whole && whole > 0
    ensures 0.0 <= part as real / whole as real <= 1.0
    ensures part == whole ==> part as real / whole as real == 1.0
    ensures part == 0 ==> part as real / whole as real == 0.0
  {
  }

  /** Hundredths of an hour. */
  function MeanHours(total: real, resolved: nat): int
    requires resolved > 0
  {
    HalfUp(total / resolved as real * 100.0)
  }

  method TallyResolved(resolvedRows: seq<Ticket>) returns (breached: nat, totalHours: real)
    requires forall t | t in resolvedRows :: t.resolvedAt.Some?
    ensures breached == Count(resolvedRows, Late()) && breached <= |resolvedRows|
    ensures totalHours == RealTotal(resolvedRows, HoursOpen())
  {
    breached, totalHours := 0, 0.0;
    for i := 0 to |resolvedRows|
      invariant breached == Count(resolvedRows[..i], Late()) && breached <= i
      invariant totalHours == RealTotal(resolvedRows[..i], HoursOpen())
    {
      var row := resolvedRows[i];
      SumPrefix(resolvedRows, i, Counting(Late()));
      RealTotalPrefix(resolvedRows, i, HoursOpen());
      if row.resolvedAt.value > row.slaDueAt { breached := breached + 1; }
      totalHours := totalHours + (row.resolvedAt.value - row.createdAt) as real / HOUR_MS as real;
    }
    assert resolvedRows[..|resolvedRows|] == resolvedRows;
  }

  /** Hundredths of an hour, and of a percent, to the nearest. */
  lemma {:induction false} RoundedMeans(total: real, resolved: nat, breached: nat)
    requires resolved > 0 && breached <= resolved
    ensures -0.5 * resolved as real <= MeanHours(total, resolved) as real * resolved as real - 100.0 * total
            <= 0.5 * resolved as real
    ensures var off := ComplianceRate(resolved, breached) * resolved - 10000 * (resolved - breached);
            -(resolved as int) <= 2 * off <= resolved
  {
    RoundedQuotient(total, resolved as real, 100.0, MeanHours(total, resolved));
    RoundedQuotient((resolved - breached) as real, resolved as real, 10000.0, ComplianceRate(resolved, breached));
  }

  lemma {:induction false} RoundedQuotient(x: real, n: real, scale: real, r: int)
    requires n > 0.0 && r == HalfUp(x / n * scale)
    ensures -0.5 * n <= r as real * n - scale * x <= 0.5 * n
  {
    var q := x / n;
    assert q * n == x;
    var d := r as real - q * scale;
    assert -0.5 <= d <= 0.5;
    assert d * n == r as real * n - (q * n) * scale;
    assert -0.5 * n <= d * n <= 0.5 * n;
  }

  function MsOpen(): Ticket -> int
  {
    (t: Ticket) => if t.resolvedAt.Some? then t.resolvedAt.value - t.createdAt else 0
  }

  /** The hours add up the milliseconds from creation to resolution. */
  lemma {:induction false} HoursAreMs(rows: seq<Ticket>)
    ensures RealTotal(rows, HoursOpen()) == Sum(rows, MsOpen()) as real * (1.0 / 3_600_000.0)
  {
    RealTotalScaled(rows, HoursOpen(), MsOpen(), 1.0 / 3_600_000.0);
  }

  /** The places in the ledger where something holds. */
  function Places(ledger: seq<Ticket>, holds: Ticket -> bool): set<nat>
  {
    set i: nat | i < |ledger| && holds(ledger[i])
  }

  lemma {:induction false} CountIsPlaces(ledger: seq<Ticket>, holds: Ticket -> bool)
    ensures Count(ledger, holds) == |Places(ledger, holds)|
  {
    if ledger != [] {
      var n := |ledger| - 1;
      CountIsPlaces(ledger[..n], holds);
      assert n !in Places(ledger[..n], holds);
      assert Places(ledger, holds) == Places(ledger[..n], holds) + if holds(ledger[n]) then {n} else {};
    }
  }

  lemma {:induction false} CountIs(ledger: seq<Ticket>, holds: Ticket -> bool, places: set<nat>)
    requires forall i: nat :: i in places <==> i < |ledger| && holds(ledger[i])
    ensures Count(ledger, holds) == |places|
  {
    CountIsPlaces(ledger, holds);
    assert places == Places(ledger, holds);
  }

  /** What the counts of a month count, in the stamps of the rows. */
  lemma {:induction false} BacklogMeans(ledger: seq<Ticket>, at: int)
    ensures Count(ledger, Backlog(at))
            == |set i: nat | i < |ledger| && ledger[i].createdAt < at
                             && (ledger[i].resolvedAt.Some? ==> at <= ledger[i].resolvedAt.value)|
  {
    CountIs(ledger, Backlog(at), set i: nat | i < |ledger| && ledger[i].createdAt < at
                                 && (ledger[i].resolvedAt.Some? ==> at <= ledger[i].resolvedAt.value));
  }

  lemma {:induction false} ReceivedMeans(ledger: seq<Ticket>, start: int, end: int)
    ensures Count(ledger, Received(start, end))
            == |set i: nat | i < |ledger| && start <= ledger[i].createdAt < end|
  {
    CountIs(ledger, Received(start, end),
            set i: nat | i < |ledger| && start <= ledger[i].createdAt < end);
  }

  lemma {:induction false} ResolvedMeans(ledger: seq<Ticket>, start: int, end: int)
    ensures Count(ledger, ResolvedIn(start, end))
            == |set i: nat | i < |ledger| && ledger[i].resolvedAt.Some? && start <= ledger[i].resolvedAt.value < end|
  {
    CountIs(ledger, ResolvedIn(start, end),
            set i: nat | i < |ledger| && ledger[i].resolvedAt.Some? && start <= ledger[i].resolvedAt.value < end);
  }

  lemma {:induction false} ClosedMeans(ledger: seq<Ticket>, start: int, end: int)
    ensures Count(ledger, ClosedIn(start, end))
            == |set i: nat | i < |ledger| && ledger[i].closedAt.Some? && start <= ledger[i].closedAt.value < end|
  {
    CountIs(ledger, ClosedIn(start, end),
            set i: nat | i < |ledger| && ledger[i].closedAt.Some? && start <= ledger[i].closedAt.value < end);
  }

  lemma {:induction false} EscalatedMeans(ledger: seq<Ticket>, start: int, end: int)
    ensures Count(ledger, EscalatedIn(start, end))
            == |set i: nat | i < |ledger| && ledger[i].escalatedAt.Some? && start <= ledger[i].escalatedAt.value < end|
  {
    CountIs(ledger, EscalatedIn(start, end),
            set i: nat | i < |ledger| && ledger[i].escalatedAt.Some? && start <= ledger[i].escalatedAt.value < end);
  }

  lemma {:induction false} LateMeans(ledger: seq<Ticket>, start: int, end: int)
    ensures Count(ledger, LateIn(start, end))
            == |set i: nat | i < |ledger| && ledger[i].resolvedAt.Some? && start <= ledger[i].resolvedAt.value < end
                             && ledger[i].slaDueAt < ledger[i].resolvedAt.value|
  {
    CountIs(ledger, LateIn(start, end),
            set i: nat | i < |ledger| && ledger[i].resolvedAt.Some? && start <= ledger[i].resolvedAt.value < end
                             && ledger[i].slaDueAt < ledger[i].resolvedAt.value);
  }

  /** The breakdowns have an entry for exactly the categories, and the statuses, of what was
      received, and count the rows that have them. */
  lemma {:induction false} BreakdownsMean(ledger: seq<Ticket>, start: int, end: int, category: string, status: Status)
    ensures Count(ledger, ReceivedWith(start, end, CategoryOf(), category))
            == |set i: nat | i < |ledger| && start <= ledger[i].createdAt < end && ledger[i].category == category|
    ensures Count(ledger, ReceivedWith(start, end, StatusOf(), status))
            == |set i: nat | i < |ledger| && start <= ledger[i].createdAt < end && ledger[i].status == status|
  {
    CountIs(ledger, ReceivedWith(start, end, CategoryOf(), category),
            set i: nat | i < |ledger| && start <= ledger[i].createdAt < end && ledger[i].category == category);
    CountIs(ledger, ReceivedWith(start, end, StatusOf(), status),
            set i: nat | i < |ledger| && start <= ledger[i].createdAt < end && ledger[i].status == status);
  }

  function CategoryOf(): Ticket -> string { (t: Ticket) => t.category }

  function StatusOf(): Ticket -> Status { (t: Ticket) => t.status }

  /** GROUP BY with COUNT(*). */
  function GroupCounts<K(==, !new)>(rows: seq<Ticket>, key: Ticket -> K): map<K, int>
  {
    map k | k in KeysOf(rows, key) :: GroupSum(rows, key, k, Each())
  }

  function Entry<K>(counts: map<K, int>): K -> int
  {
    (k: K) => if k in counts then counts[k] else 0
  }

  /** One entry for each value received, none empty, and together everything received. */
  ghost predicate IsBreakdown<K(!new)>(counts: map<K, int>, ledger: seq<Ticket>, start: int, end: int, key: Ticket -> K)
  {
    && (forall k :: k in counts <==> exists t | t in ledger && Received(start, end)(t) :: key(t) == k)
    && (forall k | k in counts :: counts[k] == Count(ledger, ReceivedWith(start, end, key, k)))
    && exists keys: seq<K> ::
         Distinct(keys) && (forall k :: k in keys <==> k in counts)
         && Sum(keys, Entry(counts)) == Count(ledger, Received(start, end))
  }

  function ReceivedWith<K(==)>(start: int, end: int, key: Ticket -> K, k: K): Ticket -> bool
  {
    (t: Ticket) => start <= t.createdAt < end && key(t) == k
  }

  /** The report over the table's rows. */
  method BuildMonthlyComplianceReport(ledger: seq<Ticket>, start: int, end: int) returns (r: Report)
    requires start <= end
    ensures r.openingBacklog == Count(ledger, Backlog(start)) && r.pending == Count(ledger, Backlog(end))
    ensures r.received == Count(ledger, Received(start, end)) && r.resolved == Count(ledger, ResolvedIn(start, end))
    ensures r.closed == Count(ledger, ClosedIn(start, end)) && r.escalated == Count(ledger, EscalatedIn(start, end))
    ensures r.slaBreached == Count(ledger, LateIn(start, end)) && 0 <= r.slaBreached <= r.resolved
    ensures r.slaComplianceRate == if r.resolved > 0 then Some(ComplianceRate(r.resolved, r.slaBreached)) else None
    ensures r.avgResolutionHours
            == if r.resolved > 0
               then Some(MeanHours(RealTotal(Matching(ledger, ResolvedIn(start, end)), HoursOpen()), r.resolved))
               else None
    ensures IsBreakdown(r.byCategory, ledger, start, end, CategoryOf())
            && IsBreakdown(r.byStatus, ledger, start, end, StatusOf())
  {
    var resolvedRows := Matching(ledger, ResolvedIn(start, end));
    var resolved := |resolvedRows|;
    var breached, totalHours := TallyResolved(resolvedRows);
    MatchingCounts(ledger, ResolvedIn(start, end), Late(), LateIn(start, end));
    var avg := if resolved > 0 then Some(MeanHours(totalHours, resolved)) else None;
    var rate := if resolved > 0 then Some(ComplianceRate(resolved, breached)) else None;
    r := Report(Count(ledger, Backlog(start)), Count(ledger, Received(start, end)), resolved,
                Count(ledger, ClosedIn(start, end)), Count(ledger, EscalatedIn(start, end)),
                Count(ledger, Backlog(end)),
                breached, rate, avg,
                GroupCounts(Matching(ledger, Received(start, end)), CategoryOf()),
                GroupCounts(Matching(ledger, Received(start, end)), StatusOf()));
    BreakdownAddsUp(ledger, start, end, CategoryOf());
    BreakdownAddsUp(ledger, start, end, StatusOf());
  }

  function Each(): Ticket -> int { (t: Ticket) => 1 }

  /** The breakdowns by category and by status count what was received, each ticket once. */
  lemma {:induction false} BreakdownAddsUp<K(!new)>(ledger: seq<Ticket>, start: int, end: int, key: Ticket -> K)
    ensures IsBreakdown(GroupCounts(Matching(ledger, Received(start, end)), key), ledger, start, end, key)
  {
    var rows := Matching(ledger, Received(start, end));
    var keys, counts := KeysOf(rows, key), GroupCounts(rows, key);
    MatchingHasAll(ledger, Received(start, end));
    forall k ensures k in counts <==> exists t | t in ledger && Received(start, end)(t) :: key(t) == k {
      if t :| t in ledger && Received(start, end)(t) && key(t) == k { assert t in rows; }
    }
    forall k | k in counts ensures counts[k] == Count(ledger, ReceivedWith(start, end, key, k)) {
      GroupIsCount(rows, key, k);
      MatchingCounts(ledger, Received(start, end), HasKey(key, k), ReceivedWith(start, end, key, k));
    }
    GroupsAddUp(rows, keys, key, Each());
    SumEqual(keys, Entry(counts), PerGroup(rows, key, Each()));
    SumEach(rows);
  }

  function HasKey<K(==)>(key: Ticket -> K, k: K): Ticket -> bool { (t: Ticket) => key(t) == k }

  lemma {:induction false} GroupIsCount<K>(rows: seq<Ticket>, key: Ticket -> K, k: K)
    ensures GroupSum(rows, key, k, Each()) == Count(rows, HasKey(key, k))
  {
    SumEqual(rows, Only(key, k, Each()), Counting(HasKey(key, k)));
  }

  lemma {:induction false} MatchingHasAll(ledger: seq<Ticket>, holds: Ticket -> bool)
    ensures forall t | t in ledger && holds(t) :: t in Matching(ledger, holds)
  {
    if ledger != [] {
      MatchingHasAll(ledger[..|ledger| - 1], holds);
      assert ledger == ledger[..|ledger| - 1] + [ledger[|ledger| - 1]];
    }
  }

  lemma {:induction false} SumEach(rows: seq<Ticket>)
    ensures Sum(rows, Each()) == |rows|
  {
    if rows != [] { SumEach(rows[..|rows| - 1]); }
  }

  /** Nobody waits a negative time: the mean of a reachable ledger is never below zero. */
  lemma {:induction false} MeanHoursNonNegative(rows: seq<Ticket>, now: int)
    requires forall t | t in rows :: Good(t, now)
    ensures RealTotal(rows, HoursOpen()) >= 0.0
    ensures rows != [] ==> MeanHours(RealTotal(rows, HoursOpen()), |rows|) >= 0
  {
    if rows != [] {
      var t := rows[|rows| - 1];
      assert t in rows;
      MeanHoursNonNegative(rows[..|rows| - 1], now);
      assert HoursOpen()(t) >= 0.0;
      QuotientNonNegative(RealTotal(rows, HoursOpen()), |rows|);
    }
  }

  lemma {:induction false} QuotientNonNegative(x: real, n: nat)
    requires x >= 0.0 && n > 0
    ensures x / n as real * 100.0 >= 0.0
  {
  }
}
