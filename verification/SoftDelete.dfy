/** The soft-delete extension of the database client, against a table that really removes rows. */
module SoftDelete {
  import opened Options

  datatype Value = Null | Text(s: string)

  type Row = map<string, Value>

  const TOMBSTONE := "deletedAt"

  datatype Test = IsNull | NotNull | Equals(v: Value)

  /** A top-level filter: tests on named columns, and the rest, which sees the other columns. */
  datatype Where = Where(columns: map<string, Test>, rest: Row -> bool)

  datatype Command =
    | Create(key: string, row: Row)
    | FindMany(filter: Option<Where>)
    | Count(filter: Option<Where>)
    | FindUnique(key: string, select: Option<map<string, bool>>)
    | FindUniqueOrThrow(key: string, select: Option<map<string, bool>>)
    | Delete(key: string)
    | DeleteMany(filter: Option<Where>)

  datatype Reply =
    | Wrote(row: Row)
    | Conflict
    | Rows(found: map<string, Row>)
    | Number(n: nat)
    | One(row: Row)
    | Nothing
    | NotFound

  predicate Passes(row: Row, column: string, t: Test)
  {
    column in row &&
    match t
    case IsNull => row[column].Null?
    case NotNull => !row[column].Null?
    case Equals(v) => row[column] == v
  }

  function Bare(row: Row): Row { row - {TOMBSTONE} }

  predicate Matches(row: Row, w: Where)
  {
    (forall c | c in w.columns :: Passes(row, c, w.columns[c])) && w.rest(Bare(row))
  }

  /** What a filter asks: of each named column the row has, that it be null, not null, or equal. */
  lemma {:induction false} MatchesMeans(row: Row, w: Where)
    ensures Matches(row, w) <==>
              && (forall c | c in w.columns ::
                    && c in row
                    && (w.columns[c] == IsNull ==> row[c] == Null)
                    && (w.columns[c] == NotNull ==> row[c] != Null)
                    && (w.columns[c].Equals? ==> row[c] == w.columns[c].v))
              && w.rest(row - {"deletedAt"})
  {
  }

  predicate Meets(row: Row, w: Option<Where>) { w.None? || Matches(row, w.value) }

  function Select(row: Row, select: Option<map<string, bool>>): Row
  {
    if select.None? then row else map c | c in row && c in select.value && select.value[c] :: row[c]
  }

  function Matching(table: map<string, Row>, w: Option<Where>): map<string, Row>
  {
    map k | k in table && Meets(table[k], w) :: table[k]
  }

  // ---- the reference: deletes remove ------------------------------------------

  function Hard(t: map<string, Row>, c: Command): (map<string, Row>, Reply)
  {
    match c
    case Create(key, row) => if key in t then (t, Conflict) else (t[key := row], Wrote(row))
    case FindMany(w) => (t, Rows(Matching(t, w)))
    case Count(w) => (t, Number(|Matching(t, w)|))
    case FindUnique(key, select) => (t, if key in t then One(Select(t[key], select)) else Nothing)
    case FindUniqueOrThrow(key, select) => (t, if key in t then One(Select(t[key], select)) else NotFound)
    case Delete(key) => if key in t then (t - {key}, Wrote(t[key])) else (t, NotFound)
    case DeleteMany(w) => (t - Matching(t, w).Keys, Number(|Matching(t, w)|))
  }

  // ---- the extension: deletes stamp -------------------------------------------

  /** Adds deletedAt: null unless the caller scoped deletedAt. */
  function WithDeletedNull(w: Option<Where>): Where
  {
    if w.None? then Where(map[TOMBSTONE := IsNull], row => true)
    else if TOMBSTONE in w.value.columns then w.value
    else w.value.(columns := w.value.columns[TOMBSTONE := IsNull])
  }

  function Stamped(row: Row, now: string): Row { row[TOMBSTONE := Text(now)] }

  /** The lookup of findUnique with deletedAt forced into an explicit select and stripped again. */
  function Lookup(s: map<string, Row>, key: string, select: Option<map<string, bool>>): Option<Row>
  {
    if key !in s then None
    else
      var usesSelect := select.Some? && TOMBSTONE !in select.value;
      var row := Select(s[key], if usesSelect then Some(select.value[TOMBSTONE := true]) else select);
      if TOMBSTONE in row && !row[TOMBSTONE].Null? then None
      else Some(if usesSelect then Bare(row) else row)
  }

  function Extended(s: map<string, Row>, c: Command, now: string): (map<string, Row>, Reply)
  {
    match c
    case Create(key, row) =>
      if key in s then (s, Conflict) else (s[key := row[TOMBSTONE := Null]], Wrote(row[TOMBSTONE := Null]))
    case FindMany(w) => (s, Rows(Matching(s, Some(WithDeletedNull(w)))))
    case Count(w) => (s, Number(|Matching(s, Some(WithDeletedNull(w)))|))
    case FindUnique(key, select) =>
      var found := Lookup(s, key, select);
      (s, if found.Some? then One(found.value) else Nothing)
    case FindUniqueOrThrow(key, select) =>
      var found := Lookup(s, key, select);
      (s, if found.Some? then One(found.value) else NotFound)
    case Delete(key) =>
      if key !in s then (s, NotFound) else (s[key := Stamped(s[key], now)], Wrote(Stamped(s[key], now)))
    case DeleteMany(w) =>
      var hit := Matching(s, Some(WithDeletedNull(w)));
      (map k | k in s :: if k in hit then Stamped(s[k], now) else s[k], Number(|hit|))
  }

  class Client {
    var rows: map<string, Row>

    constructor ()
      ensures rows == map[]
    {
      rows := map[];
    }

    /** The handler of every operation on a model with a deletedAt column. A caller who does not
        speak of deletedAt is answered as by a table that removes rows, and sees what it would
        hold, unless a create or a delete meets a tombstone; no row ever leaves the table. */
    method AllOperations(c: Command, now: string) returns (reply: Reply)
      modifies this
      ensures (rows, reply) == Extended(old(rows), c, now)
      ensures old(rows).Keys <= rows.Keys
      ensures c.Delete? && c.key in old(rows) ==>
                rows == old(rows)[c.key := old(rows)[c.key]["deletedAt" := Text(now)]]
      ensures WellFormed(old(rows)) && Plain(c) && !MeetsTombstone(old(rows), c) ==>
                && WellFormed(rows)
                && (Visible(rows), BareReply(reply)) == Hard(Visible(old(rows)), c)
    {
      if WellFormed(rows) && Plain(c) && !MeetsTombstone(rows, c) { Simulates(rows, c, now); }
      match c
      case FindMany(w) =>
        reply := Rows(Matching(rows, Some(WithDeletedNull(w))));
      case Count(w) =>
        reply := Number(|Matching(rows, Some(WithDeletedNull(w)))|);
      case FindUnique(key, select) =>
        var row := FindLive(key, select);
        reply := if row.Some? then One(row.value) else Nothing;
      case FindUniqueOrThrow(key, select) =>
        var row := FindLive(key, select);
        reply := if row.Some? then One(row.value) else NotFound;
      case Delete(key) =>
        if key !in rows { return NotFound; }
        rows := rows[key := Stamped(rows[key], now)];
        reply := Wrote(rows[key]);
      case DeleteMany(w) =>
        var hit := Matching(rows, Some(WithDeletedNull(w)));
        rows := map k | k in rows :: if k in hit then Stamped(rows[k], now) else rows[k];
        reply := Number(|hit|);
      case Create(key, row) =>
        if key in rows { return Conflict; }
        rows := rows[key := row[TOMBSTONE := Null]];
        reply := Wrote(rows[key]);
    }

    /** Finds exactly the visible row, with the columns asked for; a tombstone comes back only
        for a select that names deletedAt to leave it out. */
    method FindLive(key: string, select: Option<map<string, bool>>) returns (row: Option<Row>)
      ensures row == Lookup(rows, key, select)
      ensures WellFormed(rows) && (select.None? || TOMBSTONE !in select.value) ==>
                && (row.Some? <==> key in Visible(rows))
                && (row.Some? ==> Bare(row.value) == Select(Visible(rows)[key], select))
      ensures row.Some? && select.Some? && TOMBSTONE !in select.value ==>
                forall column :: column in row.value <==>
                  column != "deletedAt" && column in rows[key] && column in select.value && select.value[column]
      ensures row.Some? ==> key in rows && forall column | column in row.value ::
                column in rows[key] && row.value[column] == rows[key][column]
      ensures WellFormed(rows) && Buried(rows, key) ==>
                (row.Some? <==> select.Some? && TOMBSTONE in select.value && !select.value[TOMBSTONE])
    {
      if WellFormed(rows) {
        if select.None? || TOMBSTONE !in select.value { LookupLive(rows, key, select); }
        if Buried(rows, key) { LookupLeaks(rows, key, select); }
      }
      var usesSelect := select.Some? && TOMBSTONE !in select.value;
      var runSelect := select;
      if usesSelect { runSelect := Some(select.value[TOMBSTONE := true]); }
      if key !in rows { return None; }
      var found := Select(rows[key], runSelect);
      if TOMBSTONE in found && !found[TOMBSTONE].Null? { return None; }
      if usesSelect { found := found - {TOMBSTONE}; }
      row := Some(found);
    }
  }

  // ---- simulation -------------------------------------------------------------

  /** Every stored row has the column; the caller's rows do not. */
  ghost predicate WellFormed(s: map<string, Row>)
  {
    forall k | k in s :: TOMBSTONE in s[k]
  }

  predicate Live(row: Row) { TOMBSTONE in row && row[TOMBSTONE].Null? }

  /** The table a caller who cannot see tombstones believes in. */
  function Visible(s: map<string, Row>): map<string, Row>
  {
    map k | k in s && Live(s[k]) :: Bare(s[k])
  }

  function BareRows(found: map<string, Row>): map<string, Row>
  {
    map k | k in found :: Bare(found[k])
  }

  function BareReply(r: Reply): Reply
  {
    match r
    case Wrote(row) => Wrote(Bare(row))
    case One(row) => One(Bare(row))
    case Rows(found) => Rows(BareRows(found))
    case _ => r
  }

  /** Commands that do not speak of deletedAt. */
  predicate Plain(c: Command)
  {
    match c
    case Create(_, row) => TOMBSTONE !in row
    case FindMany(w) => w.None? || TOMBSTONE !in w.value.columns
    case Count(w) => w.None? || TOMBSTONE !in w.value.columns
    case DeleteMany(w) => w.None? || TOMBSTONE !in w.value.columns
    case FindUnique(_, select) => select.None? || TOMBSTONE !in select.value
    case FindUniqueOrThrow(_, select) => select.None? || TOMBSTONE !in select.value
    case Delete(_) => true
  }

  predicate Buried(s: map<string, Row>, key: string) { key in s && !Live(s[key]) }

  /** A create or a delete that meets a tombstone. */
  predicate MeetsTombstone(s: map<string, Row>, c: Command)
  {
    (c.Create? || c.Delete?) && Buried(s, c.key)
  }

  lemma {:induction false} BareKeepsTests(row: Row, w: Option<Where>)
    requires TOMBSTONE in row && (w.None? || TOMBSTONE !in w.value.columns)
    ensures Matches(row, WithDeletedNull(w)) <==> Live(row) && Meets(Bare(row), w)
  {
    assert Bare(Bare(row)) == Bare(row);
    assert Live(row) <==> Passes(row, TOMBSTONE, IsNull);
    if w.Some? {
      var asked, all := w.value.columns, WithDeletedNull(w).columns;
      assert forall c | c in asked ::
          c in all && all[c] == asked[c] && (Passes(row, c, asked[c]) <==> Passes(Bare(row), c, asked[c]));
      assert TOMBSTONE in all && all[TOMBSTONE] == IsNull && forall c | c in all :: c == TOMBSTONE || c in asked;
    } else {
      var all := WithDeletedNull(w).columns;
      assert TOMBSTONE in all && all[TOMBSTONE] == IsNull && forall c | c in all :: c == TOMBSTONE;
    }
  }

  lemma {:induction false} SameKeys(s: map<string, Row>, w: Option<Where>)
    requires WellFormed(s) && (w.None? || TOMBSTONE !in w.value.columns)
    ensures Matching(s, Some(WithDeletedNull(w))).Keys == Matching(Visible(s), w).Keys
  {
    forall k | k in s ensures Meets(s[k], Some(WithDeletedNull(w))) <==> k in Visible(s) && Meets(Visible(s)[k], w) {
      BareKeepsTests(s[k], w);
    }
  }

  /** The filtered query finds the visible rows, and as many. */
  lemma {:induction false} SameMatches(s: map<string, Row>, w: Option<Where>)
    requires WellFormed(s) && (w.None? || TOMBSTONE !in w.value.columns)
    ensures var hit, want := Matching(s, Some(WithDeletedNull(w))), Matching(Visible(s), w);
            hit.Keys == want.Keys && |hit| == |want| && BareRows(hit) == want
  {
    var hit, want := Matching(s, Some(WithDeletedNull(w))), Matching(Visible(s), w);
    SameKeys(s, w);
    assert |hit| == |hit.Keys| && |want| == |want.Keys|;
    MatchingOfVisible(s, w, hit);
  }

  lemma {:induction false} MatchingOfVisible(s: map<string, Row>, w: Option<Where>, hit: map<string, Row>)
    requires hit.Keys == Matching(Visible(s), w).Keys && forall k | k in hit :: k in s && hit[k] == s[k]
    ensures BareRows(hit) == Matching(Visible(s), w)
  {
    var want := Matching(Visible(s), w);
    forall k | k in hit ensures BareRows(hit)[k] == want[k] {
      assert k in want.Keys;
    }
  }

  lemma {:induction false} LookupLive(s: map<string, Row>, key: string, select: Option<map<string, bool>>)
    requires WellFormed(s) && (select.None? || TOMBSTONE !in select.value)
    ensures Lookup(s, key, select).Some? <==> key in Visible(s)
    ensures key in Visible(s) ==> Bare(Lookup(s, key, select).value) == Select(Visible(s)[key], select)
  {
    if key in s && select.Some? {
      var forced := Some(select.value[TOMBSTONE := true]);
      var row := Select(s[key], forced);
      assert TOMBSTONE in row && row[TOMBSTONE] == s[key][TOMBSTONE];
      assert Bare(Bare(row)) == Select(Bare(s[key]), select);
    }
  }

  ghost predicate Agree(s: map<string, Row>, c: Command, now: string)
  {
    var (soft, reply), (hard, expected) := Extended(s, c, now), Hard(Visible(s), c);
    WellFormed(soft) && Visible(soft) == hard && BareReply(reply) == expected
  }

  /** One command: a caller sees what a removing table would show, unless it creates or deletes
      under the key of a tombstone. */
  lemma {:induction false} Simulates(s: map<string, Row>, c: Command, now: string)
    requires WellFormed(s) && Plain(c) && !MeetsTombstone(s, c)
    ensures Agree(s, c, now)
  {
    match c {
      case FindMany(w) => SimulatesFindMany(s, w, now);
      case Count(w) => SameMatches(s, w);
      case DeleteMany(w) => SimulatesDeleteMany(s, w, now);
      case FindUnique(key, select) => LookupLive(s, key, select);
      case FindUniqueOrThrow(key, select) => LookupLive(s, key, select);
      case Delete(key) => SimulatesDelete(s, key, now);
      case Create(key, row) => SimulatesCreate(s, key, row, now);
    }
  }

  lemma {:induction false} SimulatesFindMany(s: map<string, Row>, w: Option<Where>, now: string)
    requires WellFormed(s) && Plain(FindMany(w))
    ensures Agree(s, FindMany(w), now)
  {
    SameMatches(s, w);
  }

  lemma {:induction false} SimulatesCreate(s: map<string, Row>, key: string, row: Row, now: string)
    requires WellFormed(s) && Plain(Create(key, row)) && !Buried(s, key)
    ensures Agree(s, Create(key, row), now)
  {
    var stored := row[TOMBSTONE := Null];
    assert Bare(stored) == row && Live(stored);
    if key !in s {
      assert Visible(s[key := stored]) == Visible(s)[key := row];
    }
  }

  lemma {:induction false} SimulatesDelete(s: map<string, Row>, key: string, now: string)
    requires WellFormed(s) && !Buried(s, key)
    ensures Agree(s, Delete(key), now)
  {
    if key in s {
      var stamped := Stamped(s[key], now);
      assert !Live(stamped) && Bare(stamped) == Bare(s[key]);
      assert Visible(s[key := stamped]) == Visible(s) - {key};
    }
  }

  lemma {:induction false} SimulatesDeleteMany(s: map<string, Row>, w: Option<Where>, now: string)
    requires WellFormed(s) && Plain(DeleteMany(w))
    ensures Agree(s, DeleteMany(w), now)
  {
    SameMatches(s, w);
    var hit := Matching(s, Some(WithDeletedNull(w)));
    StampAll(s, hit.Keys, now);
    var soft := Extended(s, DeleteMany(w), now).0;
    assert soft == map k | k in s :: if k in hit.Keys then Stamped(s[k], now) else s[k];
  }

  lemma {:induction false} StampAll(s: map<string, Row>, keys: set<string>, now: string)
    requires WellFormed(s)
    ensures var soft := map k | k in s :: if k in keys then Stamped(s[k], now) else s[k];
            WellFormed(soft) && Visible(soft) == Visible(s) - keys
  {
    assert forall k | k in s :: !Live(Stamped(s[k], now));
  }

  /** Under a tombstone's key the two tables do part: the create is refused, the delete succeeds. */
  lemma {:induction false} TombstonesShow(s: map<string, Row>, c: Command, now: string)
    requires WellFormed(s) && Plain(c)
    ensures BareReply(Extended(s, c, now).1) == Hard(Visible(s), c).1 <==> !MeetsTombstone(s, c)
  {
    if !MeetsTombstone(s, c) {
      Simulates(s, c, now);
    }
  }

  /** The one select that defeats the hiding: it names deletedAt only to leave it out. */
  lemma {:induction false} LookupLeaks(s: map<string, Row>, key: string, select: Option<map<string, bool>>)
    requires WellFormed(s) && Buried(s, key)
    ensures Lookup(s, key, select).Some? <==> select.Some? && TOMBSTONE in select.value && !select.value[TOMBSTONE]
  {
  }

  // ---- sequences ----------------------------------------------------------------

  function HardAll(t: map<string, Row>, cs: seq<Command>): (map<string, Row>, seq<Reply>)
  {
    if cs == [] then (t, [])
    else
      var (before, replies) := HardAll(t, cs[..|cs| - 1]);
      var (after, reply) := Hard(before, cs[|cs| - 1]);
      (after, replies + [reply])
  }

  function ExtendedAll(s: map<string, Row>, cs: seq<Command>, now: nat -> string): (map<string, Row>, seq<Reply>)
  {
    if cs == [] then (s, [])
    else
      var (before, replies) := ExtendedAll(s, cs[..|cs| - 1], now);
      var (after, reply) := Extended(before, cs[|cs| - 1], now(|cs| - 1));
      (after, replies + [BareReply(reply)])
  }

  /** Any sequence of plain commands that never creates or deletes under a tombstone's key
      gets the same answers as from a table that removes rows. */
  lemma {:induction false} SequenceSimulates(cs: seq<Command>, now: nat -> string)
    requires forall i | 0 <= i < |cs| :: Plain(cs[i]) && !MeetsTombstone(ExtendedAll(map[], cs[..i], now).0, cs[i])
    ensures var (soft, replies), (hard, expected) := ExtendedAll(map[], cs, now), HardAll(map[], cs);
            WellFormed(soft) && Visible(soft) == hard && replies == expected
  {
    if cs != [] {
      var init := cs[..|cs| - 1];
      forall i | 0 <= i < |init|
        ensures Plain(init[i]) && !MeetsTombstone(ExtendedAll(map[], init[..i], now).0, init[i])
      {
        assert init[..i] == cs[..i] && init[i] == cs[i];
      }
      SequenceSimulates(init, now);
      Simulates(ExtendedAll(map[], init, now).0, cs[|cs| - 1], now(|cs| - 1));
    }
  }
}
