/** The service: one class over the ledger table, its loops proved against the ledger functions. */
module TcsService {
  import opened Options
  import opened Rounding
  import opened Sums
  import opened TcsLedger
  import opened TcsLedgerProofs
  import opened TcsReports

  /** Rows of the listed seller orders. */
  function RowsFor(rows: seq<Row>, orders: seq<string>): seq<Row>
  {
    if rows == [] then []
    else
      var before := RowsFor(rows[..|rows| - 1], orders);
      if rows[|rows| - 1].orderId in orders then before + [rows[|rows| - 1]] else before
  }

  function OrderId(): Row -> string { (r: Row) => r.orderId }

  lemma {:induction false} RowsForSums(rows: seq<Row>, orders: seq<string>, order: string, c: Component)
    requires order in orders
    ensures GroupSum(RowsFor(rows, orders), OrderId(), order, Column(c)) == Balance(rows, order, c)
    ensures (exists r | r in RowsFor(rows, orders) :: r.orderId == order)
            <==> (exists r | r in rows :: r.orderId == order)
  {
    if rows != [] {
      var init, last := rows[..|rows| - 1], rows[|rows| - 1];
      assert rows == init + [last];
      RowsForSums(init, orders, order, c);
      if last.orderId in orders {
        SumSnoc(RowsFor(init, orders), last, Only(OrderId(), order, Column(c)));
        assert last in RowsFor(rows, orders);
        assert forall r | r in RowsFor(init, orders) :: r in RowsFor(rows, orders);
      }
    }
  }

  lemma {:induction false} RowsForOrders(rows: seq<Row>, orders: seq<string>)
    ensures forall r | r in RowsFor(rows, orders) :: r.orderId in orders
  {
    if rows != [] {
      RowsForOrders(rows[..|rows| - 1], orders);
    }
  }

  /** Tax accrued minus reversed on an order, over the three tax columns. */
  function NetTcs(rows: seq<Row>, order: string): int
  {
    Balance(rows, order, Cgst) + Balance(rows, order, Sgst) + Balance(rows, order, Igst)
  }

  /** The three taxes of a row, if it is on the order. */
  function TaxOn(order: string): Row -> int
  {
    (r: Row) => if r.orderId == order then r.amounts.cgst + r.amounts.sgst + r.amounts.igst else 0
  }

  lemma {:induction false} NetIsTax(rows: seq<Row>, order: string)
    ensures NetTcs(rows, order) == Sum(rows, TaxOn(order))
  {
    if rows != [] { NetIsTax(rows[..|rows| - 1], order); }
  }

  class Service {
    var rows: seq<Row>

    ghost predicate Valid()
      reads this
    {
      Sound(rows)
    }

    constructor ()
      ensures Valid() && rows == []
    {
      rows := [];
    }

    /** createMany with skipDuplicates. */
    method CreateMany(batch: seq<Row>)
      modifies this
      ensures rows == InsertAll(old(rows), batch)
    {
      for i := 0 to |batch|
        invariant rows == InsertAll(old(rows), batch[..i])
      {
        assert batch[..i + 1][..i] == batch[..i];
        if !exists a | a in rows :: SameKey(a, batch[i]) {
          rows := rows + [batch[i]];
        }
      }
      assert batch[..|batch|] == batch;
    }

    method AccrueOrder(found: Option<SellerOrder>, items: seq<OrderItem>, period: string)
      requires Valid()
      modifies this
      ensures Valid()
      ensures rows == Accrue(old(rows), found, items, period)
    {
      AccrueSound(rows, found, items, period);
      if found.None? { return; }
      var so := found.value;
      if so.taxKind.None? { return; }
      var base := 0;
      for i := 0 to |items|
        invariant base == Sum(items[..i], Collectible()) && rows == old(rows)
      {
        SumPrefix(items, i, Collectible());
        if !IsExemptHsn(items[i].hsnCode) {
          base := base + items[i].taxableValue;
        }
      }
      assert items[..|items|] == items;
      if TCS_INCLUDE_SHIPPING_IN_BASE {
        base := base + so.shippingTaxableValue;
      }
      if base <= TCS_MIN_TAXABLE_VALUE { return; }
      var row := Row(Accrual, period, so.storeId, so.sellerId, so.id,
                     Split(base, so.taxKind.value), TCS_TOTAL_RATE_BPS, so.taxKind.value);
      assert [row][..|[row]| - 1] == [] && InsertAll(rows, []) == rows;
      CreateMany([row]);
    }

    method ReverseRefund(refund: Refund, scoped: seq<Scoped>, period: string)
      requires Valid()
      modifies this
      ensures Valid()
      ensures rows == Reverse(old(rows), refund, scoped, period)
    {
      ReverseSound(rows, refund, scoped, period);
      var grossBySo := GrossBySellerOrder(scoped);
      var orderGross := TotalGross(scoped, grossBySo);
      var batch := ProposeAll(refund, scoped, grossBySo, orderGross, period);
      CreateMany(batch);
    }

    /** The Map of gross per seller-order; the last order with an id wins. */
    method GrossBySellerOrder(scoped: seq<Scoped>) returns (grossBySo: map<string, int>)
      ensures forall s | s in scoped :: s.id in grossBySo && grossBySo[s.id] == GrossOf(scoped, s.id)
    {
      grossBySo := map[];
      for i := 0 to |scoped|
        invariant forall s | s in scoped[..i] :: s.id in grossBySo
        invariant forall id | id in grossBySo :: grossBySo[id] == GrossOf(scoped[..i], id)
      {
        assert scoped[..i + 1] == scoped[..i] + [scoped[i]];
        grossBySo := grossBySo[scoped[i].id := scoped[i].Gross()];
      }
      assert scoped[..|scoped|] == scoped;
    }

    method TotalGross(scoped: seq<Scoped>, grossBySo: map<string, int>) returns (orderGross: int)
      requires forall s | s in scoped :: s.id in grossBySo && grossBySo[s.id] == GrossOf(scoped, s.id)
      ensures orderGross == OrderGross(scoped)
    {
      orderGross := 0;
      for i := 0 to |scoped|
        invariant orderGross == Sum(scoped[..i], GrossIn(scoped))
      {
        SumPrefix(scoped, i, GrossIn(scoped));
        assert scoped[i] in scoped;
        orderGross := orderGross + grossBySo[scoped[i].id];
      }
      assert scoped[..|scoped|] == scoped;
    }

    method ProposeAll(refund: Refund, scoped: seq<Scoped>, grossBySo: map<string, int>, orderGross: int, period: string)
      returns (batch: seq<Row>)
      requires forall s | s in scoped :: s.id in grossBySo && grossBySo[s.id] == GrossOf(scoped, s.id)
      requires orderGross == OrderGross(scoped)
      ensures batch == ReversalRows(rows, refund, scoped, period)
    {
      ghost var candidate := Candidate(rows, refund, scoped, period);
      batch := [];
      for i := 0 to |scoped|
        invariant batch == Collect(scoped[..i], candidate)
      {
        assert scoped[..i + 1][..i] == scoped[..i];
        assert scoped[i] in scoped;
        var row := Propose(refund, scoped[i].id, grossBySo[scoped[i].id], orderGross, scoped, period);
        if row.Some? {
          batch := batch + [row.value];
        }
      }
      assert scoped[..|scoped|] == scoped;
    }

    /** The body of the loop over scoped orders: one candidate row, or none. */
    method Propose(refund: Refund, id: string, gross: int, orderGross: int, ghost scoped: seq<Scoped>, period: string)
      returns (row: Option<Row>)
      requires gross == GrossOf(scoped, id) && orderGross == OrderGross(scoped)
      ensures row == ReversalRow(rows, refund, scoped, id, period)
    {
      var found := AccrualOf(rows, id);
      if found.None? || gross <= 0 { return None; }
      AccrualOfFinds(rows, id);
      var accr := found.value;
      var proportion := RefundShare(refund, gross, orderGross) / gross as real;
      if proportion > 1.0 { proportion := 1.0; }
      if proportion <= 0.0 { return None; }
      var cgst := Magnitude(rows, accr, refund, proportion, Cgst);
      var sgst := Magnitude(rows, accr, refund, proportion, Sgst);
      var igst := Magnitude(rows, accr, refund, proportion, Igst);
      var net := Magnitude(rows, accr, refund, proportion, Net);
      if cgst <= 0 && sgst <= 0 && igst <= 0 && net <= 0 { return None; }
      row := Some(Row(Reversal(refund.id), period, accr.storeId, accr.sellerId, id,
                      Amounts(-net, -cgst, -sgst, -igst), accr.rateBps, accr.taxKind));
    }

    /** What payouts withhold: the ledger nets to a non-negative amount by itself, so the
        floor at zero and the rounding to paise never change a value. */
    method NetForSellerOrders(orders: seq<string>) returns (out: map<string, int>)
      requires Valid()
      ensures forall id :: id in out <==> id in orders && exists r | r in rows :: r.orderId == id
      ensures forall id | id in out :: out[id] == NetTcs(rows, id) == Sum(rows, TaxOn(id)) && 0 <= out[id]
    {
      out := map[];
      if |orders| == 0 { return; }
      var selected := RowsFor(rows, orders);
      var groups := KeysOf(selected, OrderId());
      RowsForOrders(rows, orders);
      for i := 0 to |groups|
        invariant forall id :: id in out <==> id in groups[..i]
        invariant forall id | id in out :: out[id] == NetTcs(rows, id) && 0 <= out[id]
      {
        var id := groups[i];
        assert id in groups;
        RowsForSums(rows, orders, id, Cgst);
        RowsForSums(rows, orders, id, Sgst);
        RowsForSums(rows, orders, id, Igst);
        var net := GroupSum(selected, OrderId(), id, Column(Cgst)) + GroupSum(selected, OrderId(), id, Column(Sgst))
                   + GroupSum(selected, OrderId(), id, Column(Igst));
        assert 0 <= Balance(rows, id, Cgst) && 0 <= Balance(rows, id, Sgst) && 0 <= Balance(rows, id, Igst);
        HalfAwayOfWhole(net);
        var floored := if net < 0 then 0 else HalfAway(net as real);
        assert groups[..i + 1] == groups[..i] + [id];
        out := out[id := floored];
      }
      assert groups[..|groups|] == groups;
      forall id ensures id in out <==> id in orders && exists r | r in rows :: r.orderId == id {
        if id in orders {
          RowsForSums(rows, orders, id, Cgst);
          assert (exists r | r in selected :: OrderId()(r) == id) <==> exists r | r in rows :: r.orderId == id;
        }
      }
      forall id | id in out ensures NetTcs(rows, id) == Sum(rows, TaxOn(id)) { NetIsTax(rows, id); }
    }
  }

  /** One item: its bucket is opened if need be, and bucket and grand total grow by its figures. */
  method AddItem(s: Supply, ghost seen: seq<Supply>, before: map<BucketKey, Figures>, total: Figures)
    returns (buckets: map<BucketKey, Figures>, grand: Figures)
    requires AreBuckets(before, seen) && IsTotal(total, seen)
    ensures AreBuckets(buckets, seen + [s]) && IsTotal(grand, seen + [s])
  {
    OneMoreSupply(before, total, seen, s);
    var b := if s.key in before then before[s.key] else NO_FIGURES;
    buckets, grand := before[s.key := b.Plus(s.figures)], total.Plus(s.figures);
  }

  /** The inner loop of the GSTR-1 export: one order's items. */
  method AddOrder(order: InvoicedOrder, ghost seen: seq<Supply>, before: map<BucketKey, Figures>, total: Figures)
    returns (buckets: map<BucketKey, Figures>, grand: Figures)
    requires AreBuckets(before, seen) && IsTotal(total, seen)
    ensures AreBuckets(buckets, seen + SuppliesOf(order, |order.items|))
    ensures IsTotal(grand, seen + SuppliesOf(order, |order.items|))
  {
    buckets, grand := before, total;
    assert seen + SuppliesOf(order, 0) == seen;
    for j := 0 to |order.items|
      invariant AreBuckets(buckets, seen + SuppliesOf(order, j)) && IsTotal(grand, seen + SuppliesOf(order, j))
    {
      var s := Supply(KeyFor(order, order.items[j]), order.items[j].figures);
      assert seen + SuppliesOf(order, j + 1) == seen + SuppliesOf(order, j) + [s];
      buckets, grand := AddItem(s, seen + SuppliesOf(order, j), buckets, grand);
    }
  }

  /** The bucket loop of the GSTR-1 export. */
  method BuildGstr1(orders: seq<InvoicedOrder>) returns (buckets: map<BucketKey, Figures>, grand: Figures)
    ensures AreBuckets(buckets, Supplies(orders))
    ensures IsTotal(grand, Supplies(orders))
  {
    buckets, grand := map[], NO_FIGURES;
    assert orders[..0] == [];
    for i := 0 to |orders|
      invariant AreBuckets(buckets, Supplies(orders[..i])) && IsTotal(grand, Supplies(orders[..i]))
    {
      buckets, grand := AddOrder(orders[i], Supplies(orders[..i]), buckets, grand);
      assert orders[..i + 1][..i] == orders[..i];
    }
    assert orders[..|orders|] == orders;
  }
}
