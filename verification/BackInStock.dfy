/** Back-in-stock sweeps: what counts as in stock, the alert ledger, and edge detection. */
module BackInStock {
  import opened Options
  import opened Sums

  datatype Item = Item(id: nat, productId: string, variantId: Option<string>, userId: Option<string>)

  /** A variant is purchasable when it and its product are active and not deleted. */
  datatype Variant = Variant(id: string, productId: string, purchasable: bool)

  datatype Inventory = Inventory(variantId: string, quantity: int, deleted: bool)

  datatype Stock = Stock(variants: seq<Variant>, inventory: seq<Inventory>)

  function OnHand(): Inventory -> int { (r: Inventory) => if r.deleted then 0 else r.quantity }

  function VariantOf(): Inventory -> string { (r: Inventory) => r.variantId }

  /** The quantity of a variant, summed over warehouses. */
  function Available(stock: Stock, variant: string): int
  {
    GroupSum(stock.inventory, VariantOf(), variant, OnHand())
  }

  predicate Wants(it: Item, v: Variant)
  {
    v.purchasable && if it.variantId.Some? then v.id == it.variantId.value else v.productId == it.productId
  }

  /** The item can be bought: a variant it asks for is purchasable and on hand. */
  predicate InStock(it: Item, stock: Stock)
  {
    exists v | v in stock.variants :: Wants(it, v) && Available(stock, v.id) > 0
  }

  /** What a warehouse row adds to a variant's quantity. */
  function Shelf(variant: string): Inventory -> int
  {
    (r: Inventory) => if r.variantId == variant && !r.deleted then r.quantity else 0
  }

  /** An item is in stock exactly when a purchasable variant that it names, or any of its product if
      it names none, has more than nothing on the shelves that are not deleted. */
  lemma {:induction false} InStockMeans(it: Item, stock: Stock)
    ensures InStock(it, stock) <==>
              exists v | v in stock.variants && v.purchasable ::
                (if it.variantId.Some? then it.variantId == Some(v.id) else v.productId == it.productId)
                && Sum(stock.inventory, Shelf(v.id)) > 0
  {
    forall variant: string ensures Available(stock, variant) == Sum(stock.inventory, Shelf(variant)) {
      SumEqual(stock.inventory, Only(VariantOf(), variant, OnHand()), Shelf(variant));
    }
  }

  /** The first variant that makes the item in stock, as the sweep looks for it. */
  method FindTrigger(it: Item, stock: Stock) returns (trigger: Option<string>)
    ensures trigger.Some? <==> InStock(it, stock)
    ensures trigger.Some? ==>
              exists v | v in stock.variants :: v.id == trigger.value && Wants(it, v) && Available(stock, v.id) > 0
  {
    for i := 0 to |stock.variants|
      invariant forall v | v in stock.variants[..i] :: !(Wants(it, v) && Available(stock, v.id) > 0)
    {
      var v := stock.variants[i];
      if Wants(it, v) && Available(stock, v.id) > 0 { return Some(v.id); }
      assert stock.variants[..i + 1] == stock.variants[..i] + [v];
    }
    assert stock.variants[..|stock.variants|] == stock.variants;
    trigger := None;
  }

  // ---- one sweep --------------------------------------------------------------

  function Rearms(stock: Stock, ledger: set<nat>): Item -> bool
  {
    (it: Item) => !InStock(it, stock) && it.id in ledger
  }

  function Alerts(stock: Stock, ledger: set<nat>): Item -> bool
  {
    (it: Item) => InStock(it, stock) && it.id !in ledger && it.userId.Some?
  }

  /** The ids of the items for which something holds, in order and as a set. */
  function IdsWhere(items: seq<Item>, holds: Item -> bool): seq<nat>
  {
    if items == [] then []
    else
      var before, last := IdsWhere(items[..|items| - 1], holds), items[|items| - 1];
      if holds(last) then before + [last.id] else before
  }

  function IdSet(items: seq<Item>, holds: Item -> bool): set<nat>
  {
    set it | it in items && holds(it) :: it.id
  }

  /** The alerts a sweep owes, in the order of its items. */
  function AlertsOwed(items: seq<Item>, stock: Stock, ledger: set<nat>): seq<nat>
  {
    IdsWhere(items, Alerts(stock, ledger))
  }

  function RearmIds(items: seq<Item>, stock: Stock, ledger: set<nat>): set<nat>
  {
    IdSet(items, Rearms(stock, ledger))
  }

  function AlertIds(items: seq<Item>, stock: Stock, ledger: set<nat>): set<nat>
  {
    IdSet(items, Alerts(stock, ledger))
  }

  function LedgerAfter(items: seq<Item>, stock: Stock, ledger: set<nat>): set<nat>
  {
    ledger - RearmIds(items, stock, ledger) + AlertIds(items, stock, ledger)
  }

  function Elements(ids: seq<nat>): set<nat>
  {
    set id | id in ids
  }

  ghost predicate DistinctIds(items: seq<Item>)
  {
    forall i, j | 0 <= i < j < |items| :: items[i].id != items[j].id
  }

  class AlertLedger {
    var ledger: set<nat>
    var sent: seq<nat>

    constructor ()
      ensures ledger == {} && sent == []
    {
      ledger, sent := {}, [];
    }

    /** Writes the ledger row and the event together; false if the row was there already. */
    method EnqueueAlert(id: nat) returns (wrote: bool)
      modifies this
      ensures wrote <==> id !in old(ledger)
      ensures ledger == old(ledger) + {id}
      ensures sent == if wrote then old(sent) + [id] else old(sent)
    {
      wrote := id !in ledger;
      if wrote {
        ledger := ledger + {id};
        sent := sent + [id];
      }
    }

    method Decide(items: seq<Item>, stock: Stock) returns (toRearm: set<nat>, toAlert: seq<nat>)
      ensures toRearm == RearmIds(items, stock, ledger) && toAlert == AlertsOwed(items, stock, ledger)
    {
      toRearm, toAlert := {}, [];
      for i := 0 to |items|
        invariant toRearm == RearmIds(items[..i], stock, ledger)
        invariant toAlert == AlertsOwed(items[..i], stock, ledger)
      {
        assert items[..i + 1] == items[..i] + [items[i]];
        IdSetSnoc(items[..i], items[i], Rearms(stock, ledger));
        IdSetSnoc(items[..i], items[i], Alerts(stock, ledger));
        var trigger := FindTrigger(items[i], stock);
        var hasRow := items[i].id in ledger;
        if trigger.None? && hasRow {
          toRearm := toRearm + {items[i].id};
        } else if trigger.Some? && !hasRow && items[i].userId.Some? {
          toAlert := toAlert + [items[i].id];
        }
      }
      assert items[..|items|] == items;
    }

    /** Enqueues the alerts one after the other; each is new, so each is written. */
    method AlertAll(toAlert: seq<nat>) returns (alerted: nat)
      requires Distinct(toAlert) && Elements(toAlert) !! ledger
      modifies this
      ensures ledger == old(ledger) + Elements(toAlert)
      ensures sent == old(sent) + toAlert && alerted == |toAlert|
    {
      alerted := 0;
      for i := 0 to |toAlert|
        invariant ledger == old(ledger) + Elements(toAlert[..i])
        invariant sent == old(sent) + toAlert[..i] && alerted == i
      {
        NextElement(toAlert, i);
        var did := EnqueueAlert(toAlert[i]);
        if did { alerted := alerted + 1; }
      }
      assert toAlert[..|toAlert|] == toAlert;
    }

    /** Returns how many alerts it enqueued and how many rows it re-armed. */
    method RunSweep(items: seq<Item>, stock: Stock) returns (alerted: nat, rearmed: nat)
      requires DistinctIds(items)
      modifies this
      ensures ledger == LedgerAfter(items, stock, old(ledger))
      ensures sent == old(sent) + AlertsOwed(items, stock, old(ledger))
      ensures alerted == |AlertIds(items, stock, old(ledger))| && rearmed == |RearmIds(items, stock, old(ledger))|
      ensures alerted - rearmed == |ledger| - |old(ledger)|
    {
      var toRearm, toAlert := Decide(items, stock);
      ListedOnce(items, Alerts(stock, ledger));
      SizesAdd(ledger, toRearm, AlertIds(items, stock, ledger));
      rearmed := |toRearm|;
      ledger := ledger - toRearm;
      alerted := AlertAll(toAlert);
    }
  }

  /** Taking away a subset and adding a disjoint set changes the size by their sizes. */
  lemma {:induction false} SizesAdd(ledger: set<nat>, gone: set<nat>, added: set<nat>)
    requires gone <= ledger && added !! ledger
    ensures |ledger - gone + added| == |ledger| - |gone| + |added|
  {
    assert ledger == (ledger - gone) + gone;
  }

  lemma {:induction false} NextElement(ids: seq<nat>, i: nat)
    requires Distinct(ids) && i < |ids|
    ensures ids[..i + 1] == ids[..i] + [ids[i]] && ids[i] !in ids[..i]
    ensures Elements(ids[..i + 1]) == Elements(ids[..i]) + {ids[i]} && ids[i] !in Elements(ids[..i])
  {
    assert ids[..i + 1] == ids[..i] + [ids[i]];
  }

  lemma {:induction false} DistinctSnoc(ids: seq<nat>, id: nat)
    requires Distinct(ids) && id !in Elements(ids)
    ensures Distinct(ids + [id]) && Elements(ids + [id]) == Elements(ids) + {id}
  {
    assert forall i | 0 <= i < |ids| :: ids[i] in Elements(ids);
  }

  lemma {:induction false} IdSetSnoc(items: seq<Item>, last: Item, holds: Item -> bool)
    ensures IdSet(items + [last], holds) == IdSet(items, holds) + if holds(last) then {last.id} else {}
    ensures IdsWhere(items + [last], holds) == IdsWhere(items, holds) + if holds(last) then [last.id] else []
  {
    assert (items + [last])[..|items|] == items;
  }

  lemma {:induction false} NewId(items: seq<Item>, last: Item, holds: Item -> bool)
    requires DistinctIds(items + [last])
    ensures DistinctIds(items) && last.id !in IdSet(items, holds)
  {
    assert forall i | 0 <= i < |items| :: (items + [last])[i] == items[i];
    forall it | it in items ensures it.id != last.id {
      var i :| 0 <= i < |items| && items[i] == it;
      assert (items + [last])[i].id != (items + [last])[|items|].id;
    }
  }

  /** The ids listed are distinct, and are those of the set. */
  lemma {:induction false} ListedOnce(items: seq<Item>, holds: Item -> bool)
    requires DistinctIds(items)
    ensures Distinct(IdsWhere(items, holds)) && Elements(IdsWhere(items, holds)) == IdSet(items, holds)
    ensures |IdsWhere(items, holds)| == |IdSet(items, holds)|
  {
    if items != [] {
      var init, last := items[..|items| - 1], items[|items| - 1];
      assert items == init + [last];
      NewId(init, last, holds);
      IdSetSnoc(init, last, holds);
      ListedOnce(init, holds);
      DistinctSnoc(IdsWhere(init, holds), last.id);
    }
  }

  // ---- serial sweeps: rising edges ---------------------------------------------

  /** What one sweep finds: the wishlist items it reads, in any selection, and the stock. */
  datatype Sight = Sight(items: seq<Item>, stock: Stock)

  function SweepAll(sights: seq<Sight>): set<nat>
  {
    if sights == [] then {}
    else
      var last := sights[|sights| - 1];
      LedgerAfter(last.items, last.stock, SweepAll(sights[..|sights| - 1]))
  }

  ghost predicate SeenInStock(sight: Sight, id: nat)
  {
    exists it | it in sight.items :: it.id == id && InStock(it, sight.stock)
  }

  ghost predicate SeenOutOfStock(sight: Sight, id: nat)
  {
    exists it | it in sight.items :: it.id == id && !InStock(it, sight.stock)
  }

  /** In stock, and on the list of a known user. */
  ghost predicate SeenForUser(sight: Sight, id: nat)
  {
    exists it | it in sight.items :: it.id == id && InStock(it, sight.stock) && it.userId.Some?
  }

  ghost predicate AllDistinct(sights: seq<Sight>)
  {
    forall i | 0 <= i < |sights| :: DistinctIds(sights[i].items)
  }

  lemma {:induction false} OneItem(items: seq<Item>, a: Item, b: Item)
    requires DistinctIds(items) && a in items && b in items && a.id == b.id
    ensures a == b
  {
  }

  /** What one sweep does to one item's row. */
  lemma {:induction false} RowAfterSweep(sight: Sight, ledger: set<nat>, id: nat)
    requires DistinctIds(sight.items)
    ensures id in LedgerAfter(sight.items, sight.stock, ledger) <==>
              SeenForUser(sight, id) || (id in ledger && !SeenOutOfStock(sight, id))
    ensures id in AlertIds(sight.items, sight.stock, ledger) <==> SeenForUser(sight, id) && id !in ledger
    ensures !(SeenInStock(sight, id) && SeenOutOfStock(sight, id))
  {
    forall a, b | a in sight.items && b in sight.items && a.id == b.id ensures a == b {
      OneItem(sight.items, a, b);
    }
  }

  /** The item was in stock for a known user at some sweep, and out of stock at none since. */
  ghost predicate StillFresh(sights: seq<Sight>, id: nat)
  {
    exists j | 0 <= j < |sights| :: SeenForUser(sights[j], id) && NotOutSince(sights, j, id)
  }

  ghost predicate NotOutSince(sights: seq<Sight>, j: nat, id: nat)
  {
    forall k | j < k < |sights| :: !SeenOutOfStock(sights[k], id)
  }

  /** After any serial sweeps, whatever items each of them read, an item has a row exactly when
      it has been in stock for a known user and not been seen out of stock since. */
  lemma {:induction false} RowMeansInStock(sights: seq<Sight>, id: nat)
    requires AllDistinct(sights)
    ensures id in SweepAll(sights) <==> StillFresh(sights, id)
  {
    if sights != [] {
      var n := |sights| - 1;
      RowMeansInStock(sights[..n], id);
      RowAfterSweep(sights[n], SweepAll(sights[..n]), id);
      FreshStep(sights, id);
    }
  }

  lemma {:induction false} FreshStep(sights: seq<Sight>, id: nat)
    requires sights != []
    ensures var n := |sights| - 1;
            StillFresh(sights, id) <==>
              SeenForUser(sights[n], id) || (StillFresh(sights[..n], id) && !SeenOutOfStock(sights[n], id))
  {
    var n := |sights| - 1;
    if SeenForUser(sights[n], id) { assert NotOutSince(sights, n, id); }
    if StillFresh(sights[..n], id) && !SeenOutOfStock(sights[n], id) {
      var j :| 0 <= j < n && SeenForUser(sights[..n][j], id) && NotOutSince(sights[..n], j, id);
      assert forall k | j < k < n :: sights[..n][k] == sights[k];
      assert NotOutSince(sights, j, id) && SeenForUser(sights[j], id);
    }
    if StillFresh(sights, id) && !SeenForUser(sights[n], id) {
      var j :| 0 <= j < |sights| && SeenForUser(sights[j], id) && NotOutSince(sights, j, id);
      assert !SeenOutOfStock(sights[n], id);
      assert sights[..n][j] == sights[j] && forall k | j < k < n :: sights[..n][k] == sights[k];
      assert NotOutSince(sights[..n], j, id);
    }
  }

  /** The last sweep that read the item found it in stock. */
  ghost predicate LastSeenInStock(sights: seq<Sight>, id: nat)
  {
    sights != [] &&
    var n := |sights| - 1;
    SeenInStock(sights[n], id) || (!SeenOutOfStock(sights[n], id) && LastSeenInStock(sights[..n], id))
  }

  /** The item's user is known whenever it is read. */
  ghost predicate AlwaysKnown(sights: seq<Sight>, id: nat)
  {
    forall i | 0 <= i < |sights| :: SeenInStock(sights[i], id) ==> SeenForUser(sights[i], id)
  }

  lemma {:induction false} RowMeansLastSeen(sights: seq<Sight>, id: nat)
    requires AllDistinct(sights) && AlwaysKnown(sights, id)
    ensures id in SweepAll(sights) <==> LastSeenInStock(sights, id)
  {
    if sights != [] {
      var n := |sights| - 1;
      RowMeansLastSeen(sights[..n], id);
      RowAfterSweep(sights[n], SweepAll(sights[..n]), id);
    }
  }

  /** A sweep alerts an item exactly when it reads it in stock for a known user and the item
      has not stayed fresh since an earlier sweep; for an item whose user is always known, exactly
      at the rising edges: in stock now, and not in stock when it was last read before. */
  lemma {:induction false} AlertsAreRisingEdges(sights: seq<Sight>, id: nat)
    requires AllDistinct(sights) && sights != []
    ensures var n := |sights| - 1;
            var alerted := id in AlertIds(sights[n].items, sights[n].stock, SweepAll(sights[..n]));
            && (alerted <==> SeenForUser(sights[n], id) && !StillFresh(sights[..n], id))
            && (AlwaysKnown(sights, id) ==>
                  (alerted <==> SeenInStock(sights[n], id) && !LastSeenInStock(sights[..n], id)))
  {
    var n := |sights| - 1;
    RowMeansInStock(sights[..n], id);
    RowAfterSweep(sights[n], SweepAll(sights[..n]), id);
    if AlwaysKnown(sights, id) {
      RowMeansLastSeen(sights[..n], id);
      assert SeenForUser(sights[n], id) ==> SeenInStock(sights[n], id);
    }
  }

  // ---- overlapping sweeps -------------------------------------------------------

  /** A sweep under way, decided on what it read when it began. */
  datatype Sweep = Sweep(toRearm: set<nat>, toAlert: seq<nat>, rearmed: nat, alerted: nat)

  /** The counts are history: alerts enqueued and rows removed, per item. */
  datatype State = State(ledger: set<nat>, sweeps: map<nat, Sweep>, enqueued: map<nat, nat>, removed: map<nat, nat>)

  datatype Step =
    | Begin(sweep: nat, items: seq<Item>, stock: Stock)
    | Rearm(sweep: nat)
    | Alert(sweep: nat)
    | Stop(sweep: nat)

  function Tally(m: map<nat, nat>, id: nat): nat { if id in m then m[id] else 0 }

  function Bump(m: map<nat, nat>, ids: set<nat>): map<nat, nat>
  {
    map id | id in m.Keys + ids :: Tally(m, id) + if id in ids then 1 else 0
  }

  predicate CanStep(s: State, step: Step)
  {
    match step
    case Begin(k, _, _) => k !in s.sweeps
    case Rearm(k) => k in s.sweeps
    case Alert(k) => k in s.sweeps && s.sweeps[k].toAlert != []
    case Stop(k) => k in s.sweeps
  }

  function Take(s: State, step: Step): State
    requires CanStep(s, step)
  {
    match step
    case Begin(k, items, stock) =>
      s.(sweeps := s.sweeps[k := Sweep(RearmIds(items, stock, s.ledger), AlertsOwed(items, stock, s.ledger), 0, 0)])
    case Rearm(k) =>
      var hit := s.ledger * s.sweeps[k].toRearm;
      s.(ledger := s.ledger - hit, removed := Bump(s.removed, hit),
         sweeps := s.sweeps[k := s.sweeps[k].(toRearm := {}, rearmed := s.sweeps[k].rearmed + |hit|)])
    case Alert(k) =>
      var id, rest := s.sweeps[k].toAlert[0], s.sweeps[k].(toAlert := s.sweeps[k].toAlert[1..]);
      if id in s.ledger then s.(sweeps := s.sweeps[k := rest])
      else s.(ledger := s.ledger + {id}, enqueued := Bump(s.enqueued, {id}),
              sweeps := s.sweeps[k := rest.(alerted := rest.alerted + 1)])
    case Stop(k) => s.(sweeps := s.sweeps - {k})
  }

  predicate CanRun(s: State, steps: seq<Step>)
    decreases |steps|, 0
  {
    steps == [] || (CanRun(s, steps[..|steps| - 1]) && CanStep(After(s, steps[..|steps| - 1]), steps[|steps| - 1]))
  }

  function After(s: State, steps: seq<Step>): State
    requires CanRun(s, steps)
    decreases |steps|, 1
  {
    if steps == [] then s else Take(After(s, steps[..|steps| - 1]), steps[|steps| - 1])
  }

  ghost predicate Balanced(s: State)
  {
    forall id :: Tally(s.enqueued, id) == Tally(s.removed, id) + if id in s.ledger then 1 else 0
  }

  /** However sweeps overlap, and wherever they stop, an item's alerts are one for each row
      removed and one for the row present: no second alert without a re-arm between. */
  lemma {:induction false} OverlapBalances(steps: seq<Step>)
    requires CanRun(State({}, map[], map[], map[]), steps)
    ensures Balanced(After(State({}, map[], map[], map[]), steps))
  {
    if steps != [] {
      var init, last := steps[..|steps| - 1], steps[|steps| - 1];
      OverlapBalances(init);
      BalancedStep(After(State({}, map[], map[], map[]), init), last);
    }
  }

  lemma {:induction false} BalancedStep(s: State, step: Step)
    requires Balanced(s) && CanStep(s, step)
    ensures Balanced(Take(s, step))
  {
    var t := Take(s, step);
    forall id ensures Tally(t.enqueued, id) == Tally(t.removed, id) + if id in t.ledger then 1 else 0 {
      assert Tally(s.enqueued, id) == Tally(s.removed, id) + if id in s.ledger then 1 else 0;
    }
  }
}
