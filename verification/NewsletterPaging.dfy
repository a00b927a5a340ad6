/** The fan-out's paging loop while subscribers come and go: each page is read from the list as it
    is at that moment, and it is settled exactly who ends without a row. */
module NewsletterPaging {
  import opened Options
  import opened Newsletter

  // ---- one page ---------------------------------------------------------------

  predicate Beyond(cursor: Option<nat>, id: nat)
  {
    cursor.None? || cursor.value < id
  }

  ghost predicate Listed(subs: seq<Subscriber>, id: nat)
  {
    exists i | 0 <= i < |subs| :: subs[i].id == id
  }

  /** id comes first after a cursor that is not active itself. */
  ghost predicate PassedOver(active: seq<Subscriber>, cursor: Option<nat>, id: nat)
  {
    && cursor.Some? && cursor.value < id
    && forall i | 0 <= i < |active| :: active[i].id < cursor.value || id <= active[i].id
  }

  lemma {:induction false} FromIs(active: seq<Subscriber>, cursor: nat) returns (j: nat)
    requires Ordered(active)
    ensures j <= |active| && From(active, cursor) == active[j..]
    ensures forall i | 0 <= i < |active| :: i < j <==> active[i].id < cursor
  {
    if active == [] || active[0].id >= cursor {
      j := 0;
    } else {
      var rest := FromIs(active[1..], cursor);
      j := rest + 1;
      assert active[1..][rest..] == active[j..];
      assert forall i | 1 <= i < |active| :: active[i] == active[1..][i - 1];
    }
  }

  /** Where in the list a page starts and stops. */
  lemma {:induction false} PageIs(active: seq<Subscriber>, cursor: Option<nat>) returns (k: nat, m: nat)
    requires Ordered(active)
    ensures k <= m <= |active| && Page(active, cursor) == active[k..m]
    ensures k == m ==> m == |active|
    ensures forall i | 0 <= i < |active| ::
              i < k <==> !Beyond(cursor, active[i].id) || PassedOver(active, cursor, active[i].id)
  {
    if cursor.None? {
      k, m := 0, Min(BATCH_SIZE, |active|);
    } else {
      var j := FromIs(active, cursor.value);
      k := if j < |active| then j + 1 else j;
      m := Min(k + BATCH_SIZE, |active|);
      assert j < |active| ==> active[j..][1..] == active[k..];
      assert active[k..][..m - k] == active[k..m];
      forall i | 0 <= i < |active|
        ensures i < k <==> !Beyond(cursor, active[i].id) || PassedOver(active, cursor, active[i].id)
      {
        StartsAt(active, cursor.value, j, i);
      }
    }
  }

  lemma {:induction false} StartsAt(active: seq<Subscriber>, cursor: nat, j: nat, i: nat)
    requires Ordered(active) && j <= |active| && i < |active|
    requires forall n | 0 <= n < |active| :: n < j <==> active[n].id < cursor
    ensures i <= j <==> active[i].id <= cursor || PassedOver(active, Some(cursor), active[i].id)
  {
    if i > j { assert active[j].id < active[i].id; }
  }

  /** An active subscriber that a read at this cursor should still reach. */
  ghost predicate Due(active: seq<Subscriber>, cursor: Option<nat>, id: nat)
  {
    Listed(active, id) && Beyond(cursor, id) && !PassedOver(active, cursor, id)
  }

  lemma {:induction false} SliceListed(active: seq<Subscriber>, k: nat, m: nat, id: nat)
    requires Ordered(active) && k <= m <= |active|
    ensures Listed(active[k..m], id) <==> exists i | k <= i < m :: active[i].id == id
    ensures k < m ==> (Listed(active[k..m], id) <==>
                         (exists i | k <= i < |active| :: active[i].id == id) && id <= active[m - 1].id)
  {
    if i :| k <= i < m && active[i].id == id { assert active[k..m][i - k].id == id; }
  }

  /** A page holds exactly the due subscribers up to its last one, and it is empty only if no one
      is due. */
  lemma {:induction false} InPage(active: seq<Subscriber>, cursor: Option<nat>, id: nat)
    requires Ordered(active)
    ensures var page := Page(active, cursor);
            && (page == [] ==> !Due(active, cursor, id))
            && (Listed(page, id) <==> Due(active, cursor, id) && page != [] && id <= page[|page| - 1].id)
  {
    var k, m := PageIs(active, cursor);
    SliceListed(active, k, m, id);
    DueFrom(active, cursor, k, id);
  }

  lemma {:induction false} DueFrom(active: seq<Subscriber>, cursor: Option<nat>, k: nat, id: nat)
    requires Ordered(active) && k <= |active|
    requires forall i | 0 <= i < |active| ::
               i < k <==> !Beyond(cursor, active[i].id) || PassedOver(active, cursor, active[i].id)
    ensures Due(active, cursor, id) <==> exists i | k <= i < |active| :: active[i].id == id
  {
  }

  // ---- the loop ---------------------------------------------------------------

  /** The cursor and the page of each read, when the lists read are these in turn. */
  ghost function CursorOf(lists: seq<seq<Subscriber>>, i: nat): Option<nat>
    requires i <= |lists|
    decreases i, 0
  {
    if i == 0 then None
    else
      var page := PageOf(lists, i - 1);
      if page == [] then CursorOf(lists, i - 1) else Some(page[|page| - 1].id)
  }

  ghost function PageOf(lists: seq<seq<Subscriber>>, i: nat): seq<Subscriber>
    requires i < |lists|
    decreases i, 1
  {
    Page(lists[i], CursorOf(lists, i))
  }

  /** The reads of one whole loop: it ends with the first empty page. */
  ghost predicate WholeLoop(lists: seq<seq<Subscriber>>)
  {
    && lists != [] && (forall i | 0 <= i < |lists| :: Ordered(lists[i]))
    && forall i | 0 <= i < |lists| :: PageOf(lists, i) == [] <==> i == |lists| - 1
  }

  /** One of the first n pages holds id. */
  ghost predicate CoveredBy(lists: seq<seq<Subscriber>>, n: nat, id: nat)
    requires n <= |lists|
  {
    exists i | 0 <= i < n :: Listed(PageOf(lists, i), id)
  }

  ghost predicate Covered(lists: seq<seq<Subscriber>>, id: nat) { CoveredBy(lists, |lists|, id) }

  /** The read at which the cursor is about to pass id, or the last. */
  ghost predicate IsTurn(lists: seq<seq<Subscriber>>, id: nat, i: nat)
  {
    && i < |lists| && Beyond(CursorOf(lists, i), id)
    && (i == |lists| - 1 || !Beyond(CursorOf(lists, i + 1), id))
  }

  lemma {:induction false} CursorsRise(lists: seq<seq<Subscriber>>, i: nat, j: nat, id: nat)
    requires WholeLoop(lists) && i <= j < |lists| && Beyond(CursorOf(lists, j), id)
    ensures Beyond(CursorOf(lists, i), id)
  {
    if i < j {
      var page := PageOf(lists, j - 1);
      var last := page[|page| - 1];
      assert last in page;
      InPage(lists[j - 1], CursorOf(lists, j - 1), last.id);
      CursorsRise(lists, i, j - 1, id);
    }
  }

  lemma {:induction false} HasTurn(lists: seq<seq<Subscriber>>, id: nat, i: nat) returns (turn: nat)
    requires WholeLoop(lists) && i < |lists| && Beyond(CursorOf(lists, i), id)
    ensures IsTurn(lists, id, turn)
    decreases |lists| - i
  {
    if i == |lists| - 1 || !Beyond(CursorOf(lists, i + 1), id) {
      turn := i;
    } else {
      turn := HasTurn(lists, id, i + 1);
    }
  }

  lemma {:induction false} OneTurn(lists: seq<seq<Subscriber>>, id: nat, i: nat, j: nat)
    requires WholeLoop(lists) && IsTurn(lists, id, i) && IsTurn(lists, id, j)
    ensures i == j
  {
    if i < j { CursorsRise(lists, i + 1, j, id); }
    if j < i { CursorsRise(lists, j + 1, i, id); }
  }

  /** The page that covers someone is read at their turn. */
  lemma {:induction false} CoveringIsTurn(lists: seq<seq<Subscriber>>, id: nat, i: nat)
    requires WholeLoop(lists) && i < |lists| && Listed(PageOf(lists, i), id)
    ensures IsTurn(lists, id, i) && Due(lists[i], CursorOf(lists, i), id)
  {
    InPage(lists[i], CursorOf(lists, i), id);
  }

  lemma {:induction false} DueIsCovered(lists: seq<seq<Subscriber>>, id: nat, i: nat)
    requires WholeLoop(lists) && IsTurn(lists, id, i) && Due(lists[i], CursorOf(lists, i), id)
    ensures Listed(PageOf(lists, i), id)
  {
    InPage(lists[i], CursorOf(lists, i), id);
  }

  /** Everyone has one turn, and is covered exactly if active then and not passed over then. */
  lemma {:induction false} CoveredAtItsTurn(lists: seq<seq<Subscriber>>, id: nat) returns (turn: nat)
    requires WholeLoop(lists)
    ensures IsTurn(lists, id, turn) && forall i | IsTurn(lists, id, i) :: i == turn
    ensures Covered(lists, id) <==> Due(lists[turn], CursorOf(lists, turn), id)
  {
    turn := HasTurn(lists, id, 0);
    forall i | IsTurn(lists, id, i) ensures i == turn { OneTurn(lists, id, i, turn); }
    if Covered(lists, id) {
      var i :| 0 <= i < |lists| && Listed(PageOf(lists, i), id);
      CoveringIsTurn(lists, id, i);
    } else if Due(lists[turn], CursorOf(lists, turn), id) {
      DueIsCovered(lists, id, turn);
    }
  }

  /** So of those active at every read exactly the ones passed over at some read are missed. */
  lemma {:induction false} StayersMissed(lists: seq<seq<Subscriber>>, id: nat)
    requires WholeLoop(lists) && forall i | 0 <= i < |lists| :: Listed(lists[i], id)
    ensures !Covered(lists, id) <==>
              exists i | 0 <= i < |lists| :: IsTurn(lists, id, i) && PassedOver(lists[i], CursorOf(lists, i), id)
  {
    var turn := CoveredAtItsTurn(lists, id);
  }

  // ---- the rows written -------------------------------------------------------

  /** The ledger after the first i pages. */
  ghost function Paged(l: Ledger, lists: seq<seq<Subscriber>>, keep: Subscriber -> bool, i: nat): Ledger
    requires i <= |lists|
  {
    if i == 0 then l else WriteAll(Paged(l, lists, keep, i - 1), PageOf(lists, i - 1), keep)
  }

  lemma {:induction false} WrittenKeys(l: Ledger, subs: seq<Subscriber>, keep: Subscriber -> bool, id: nat)
    ensures id in WriteAll(l, subs, keep).recipients <==> id in l.recipients || Listed(subs, id)
  {
    if subs != [] {
      var init := subs[..|subs| - 1];
      WrittenKeys(l, init, keep, id);
      assert Listed(subs, id) <==> Listed(init, id) || subs[|subs| - 1].id == id;
    }
  }

  lemma {:induction false} PagedKeys(l: Ledger, lists: seq<seq<Subscriber>>, keep: Subscriber -> bool, i: nat, id: nat)
    requires i <= |lists|
    ensures id in Paged(l, lists, keep, i).recipients <==>
              id in l.recipients || CoveredBy(lists, i, id)
  {
    if i > 0 {
      PagedKeys(l, lists, keep, i - 1, id);
      WrittenKeys(Paged(l, lists, keep, i - 1), PageOf(lists, i - 1), keep, id);
      var last := Listed(PageOf(lists, i - 1), id);
      assert CoveredBy(lists, i, id) <==> CoveredBy(lists, i - 1, id) || last;
    }
  }

  /** Who ends a whole loop without a row: exactly those who had none and, at their turn, were not
      active or were passed over. */
  lemma {:induction false} WhoEndsWithoutARow(l: Ledger, lists: seq<seq<Subscriber>>, keep: Subscriber -> bool, id: nat)
    returns (turn: nat)
    requires WholeLoop(lists)
    ensures IsTurn(lists, id, turn)
    ensures id !in Paged(l, lists, keep, |lists|).recipients <==>
              && id !in l.recipients
              && (!Listed(lists[turn], id) || PassedOver(lists[turn], CursorOf(lists, turn), id))
  {
    PagedKeys(l, lists, keep, |lists|, id);
    turn := CoveredAtItsTurn(lists, id);
  }

  // ---- a run that misses someone ------------------------------------------------

  function Subscribers(n: nat): (active: seq<Subscriber>)
    ensures |active| == n && forall i | 0 <= i < n :: active[i] == Subscriber(i, "")
  {
    if n == 0 then [] else Subscribers(n - 1) + [Subscriber(n - 1, "")]
  }

  /** The reads of a loop over 201 subscribers, of whom the one with id 199 leaves after the first. */
  function Reads(): seq<seq<Subscriber>>
  {
    [Subscribers(201), Subscribers(199) + [Subscriber(200, "")]]
  }

  lemma {:induction false} FirstRead()
    ensures PageOf(Reads(), 0) == Subscribers(201)[..200] && CursorOf(Reads(), 1) == Some(199)
  {
    var page := PageOf(Reads(), 0);
    assert CursorOf(Reads(), 0).None? && Min(BATCH_SIZE, 201) == 200;
    assert page == Subscribers(201)[..200] && page[199] == Subscriber(199, "");
  }

  lemma {:induction false} SecondRead(left: seq<Subscriber>)
    requires left == Subscribers(199) + [Subscriber(200, "")]
    ensures Ordered(left) && Page(left, Some(199)) == []
    ensures Listed(left, 200) && PassedOver(left, Some(199), 200)
  {
    FromGap(left, 199, 199);
    assert left[199].id == 200;
  }

  /** Subscriber 200 is active at every read and ends without a row. */
  lemma {:induction false} LeaverHidesNext()
    ensures WholeLoop(Reads()) && !Covered(Reads(), 200)
    ensures forall i | 0 <= i < |Reads()| :: Listed(Reads()[i], 200)
  {
    FirstRead();
    SecondRead(Reads()[1]);
    assert Reads()[0][200].id == 200;
    assert IsTurn(Reads(), 200, 1);
    var turn := CoveredAtItsTurn(Reads(), 200);
  }
}
