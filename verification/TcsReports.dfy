/** The roll-ups of the ledger and of the invoiced supplies: period totals, the GSTR-8
    supplier columns and the GSTR-1 buckets, and how they tie out. */
module TcsReports {
  import opened Options
  import opened Rounding
  import opened Sums
  import opened TcsLedger

  // ---- GSTR-8 -----------------------------------------------------------------

  function InPeriod(rows: seq<Row>, period: string): seq<Row>
  {
    if rows == [] then []
    else
      var before := InPeriod(rows[..|rows| - 1], period);
      if rows[|rows| - 1].period == period then before + [rows[|rows| - 1]] else before
  }

  function Seller(): Row -> string { (r: Row) => r.sellerId }

  function Column(c: Component): Row -> int { (r: Row) => r.amounts.At(c) }

  /** Paise of a column sum; taxable value is kept in hundredths of a paisa. */
  function ToPaise(c: Component, amount: int): int
  {
    if c.Net? then HalfAway(amount as real / 100.0) else HalfAway(amount as real)
  }

  /** One column of aggregatePeriod, and of the GSTR-8 summary. */
  function PeriodTotal(rows: seq<Row>, period: string, c: Component): int
  {
    ToPaise(c, Sum(InPeriod(rows, period), Column(c)))
  }

  function SellersIn(rows: seq<Row>, period: string): seq<string>
  {
    KeysOf(InPeriod(rows, period), Seller())
  }

  /** One column of a supplier's GSTR-8 line. */
  function SupplierColumn(rows: seq<Row>, period: string, c: Component): string -> int
  {
    (seller: string) => ToPaise(c, GroupSum(InPeriod(rows, period), Seller(), seller, Column(c)))
  }

  /** A row's column, if it is of the period. */
  function InMonth(period: string, c: Component): Row -> int
  {
    (r: Row) => if r.period == period then r.amounts.At(c) else 0
  }

  /** A row's column, if it is of the period and the seller. */
  function OfSeller(seller: string, period: string, c: Component): Row -> int
  {
    (r: Row) => if r.period == period && r.sellerId == seller then r.amounts.At(c) else 0
  }

  lemma {:induction false} InPeriodHolds(rows: seq<Row>, period: string)
    ensures forall r :: r in InPeriod(rows, period) <==> r in rows && r.period == period
  {
    if rows != [] {
      InPeriodHolds(rows[..|rows| - 1], period);
      assert rows == rows[..|rows| - 1] + [rows[|rows| - 1]];
    }
  }

  lemma {:induction false} InPeriodSum(rows: seq<Row>, period: string, f: Row -> int, g: Row -> int)
    requires forall r: Row :: g(r) == if r.period == period then f(r) else 0
    ensures Sum(InPeriod(rows, period), f) == Sum(rows, g)
  {
    if rows != [] {
      var init, last := rows[..|rows| - 1], rows[|rows| - 1];
      InPeriodSum(init, period, f, g);
      SumSnoc(InPeriod(init, period), last, f);
    }
  }

  /** What the summary and the supplier lines are, over all rows of the ledger: tax to the paisa,
      taxable value rounded to it once; and a supplier has a line exactly with a row in the period. */
  lemma {:induction false} ReportedColumns(rows: seq<Row>, period: string, seller: string, c: Component)
    ensures var total, supplied := Sum(rows, InMonth(period, c)), Sum(rows, OfSeller(seller, period, c));
            && PeriodTotal(rows, period, c) == (if c.Net? then HalfAway(total as real / 100.0) else total)
            && SupplierColumn(rows, period, c)(seller)
               == (if c.Net? then HalfAway(supplied as real / 100.0) else supplied)
    ensures seller in SellersIn(rows, period) <==> exists r | r in rows :: r.period == period && r.sellerId == seller
  {
    InPeriodSum(rows, period, Column(c), InMonth(period, c));
    InPeriodSum(rows, period, Only(Seller(), seller, Column(c)), OfSeller(seller, period, c));
    InPeriodHolds(rows, period);
    HalfAwayOfWhole(Sum(rows, InMonth(period, c)));
    HalfAwayOfWhole(Sum(rows, OfSeller(seller, period, c)));
    if r :| r in rows && r.period == period && r.sellerId == seller {
      assert r in InPeriod(rows, period) && Seller()(r) == seller;
    }
  }

  /** The supplier lines' tax columns add up to the period summary exactly. */
  lemma {:induction false} SuppliersTieOut(rows: seq<Row>, period: string, c: Component)
    requires !c.Net?
    ensures Sum(SellersIn(rows, period), SupplierColumn(rows, period, c)) == PeriodTotal(rows, period, c)
  {
    var within := InPeriod(rows, period);
    var keys := SellersIn(rows, period);
    GroupsAddUp(within, keys, Seller(), Column(c));
    SumEqual(keys, SupplierColumn(rows, period, c), PerGroup(within, Seller(), Column(c)));
  }

  function Rounded<K>(f: K -> int): K -> int
  {
    (k: K) => HalfAway(f(k) as real / 100.0)
  }

  lemma {:induction false} RoundedParts<K>(keys: seq<K>, f: K -> int)
    ensures -(|keys| as real) / 2.0 <= Sum(keys, Rounded(f)) as real - Sum(keys, f) as real / 100.0
            <= |keys| as real / 2.0
  {
    if keys != [] {
      RoundedParts(keys[..|keys| - 1], f);
    }
  }

  /** n suppliers' rounded taxable values differ from the rounded total by at most (n + 1)/2 paise. */
  lemma {:induction false} TaxableValuesTieOut(rows: seq<Row>, period: string)
    ensures var n := |SellersIn(rows, period)|;
            var drift := Sum(SellersIn(rows, period), SupplierColumn(rows, period, Net))
                        - PeriodTotal(rows, period, Net);
            -(n + 1) <= 2 * drift <= n + 1
  {
    var within := InPeriod(rows, period);
    var keys := SellersIn(rows, period);
    var parts := PerGroup(within, Seller(), Column(Net));
    GroupsAddUp(within, keys, Seller(), Column(Net));
    RoundedParts(keys, parts);
    SumEqual(keys, SupplierColumn(rows, period, Net), Rounded(parts));
  }

  // ---- GSTR-1 -----------------------------------------------------------------

  datatype Heading = Taxable | CgstTax | SgstTax | IgstTax | Cess

  datatype Figures = Figures(taxable: int, cgst: int, sgst: int, igst: int, cess: int)
  {
    function At(h: Heading): int
    {
      match h
      case Taxable => taxable
      case CgstTax => cgst
      case SgstTax => sgst
      case IgstTax => igst
      case Cess => cess
    }

    function Plus(other: Figures): (r: Figures)
      ensures forall h: Heading :: r.At(h) == At(h) + other.At(h)
    {
      Figures(taxable + other.taxable, cgst + other.cgst, sgst + other.sgst, igst + other.igst, cess + other.cess)
    }
  }

  const NO_FIGURES := Figures(0, 0, 0, 0, 0)

  /** Rates are in hundredths of a percent. */
  datatype InvoiceItem = InvoiceItem(cgstRate: int, sgstRate: int, igstRate: int, figures: Figures)

  datatype InvoicedOrder = InvoicedOrder(taxKind: Option<string>, placeOfSupply: Option<string>,
                                 items: seq<InvoiceItem>)

  /** Supplies of one tax kind, rate and place share a bucket. */
  datatype BucketKey = BucketKey(taxKind: string, ratePct: int, place: string)

  datatype Supply = Supply(key: BucketKey, figures: Figures)

  function KeyFor(order: InvoicedOrder, item: InvoiceItem): BucketKey
  {
    var taxKind := if order.taxKind.Some? then order.taxKind.value else "UNKNOWN";
    var ratePct := if taxKind == "INTER_STATE" then item.igstRate else item.cgstRate + item.sgstRate;
    BucketKey(taxKind, ratePct, if order.placeOfSupply.Some? then order.placeOfSupply.value else "")
  }

  function SuppliesOf(order: InvoicedOrder, upTo: nat): seq<Supply>
    requires upTo <= |order.items|
  {
    if upTo == 0 then []
    else SuppliesOf(order, upTo - 1) + [Supply(KeyFor(order, order.items[upTo - 1]), order.items[upTo - 1].figures)]
  }

  /** Every item of every invoiced order, in the order the loops visit them. */
  function Supplies(orders: seq<InvoicedOrder>): seq<Supply>
  {
    if orders == [] then []
    else
      var last := orders[|orders| - 1];
      Supplies(orders[..|orders| - 1]) + SuppliesOf(last, |last.items|)
  }

  // ---- the key of a bucket --------------------------------------------------------

  /** The supply of an item: its own figures, under its order's regime and place and the rate that
      the regime charges. */
  ghost predicate IsSupplyOf(s: Supply, order: InvoicedOrder, item: InvoiceItem)
  {
    && s.figures == item.figures
    && s.key.taxKind == order.taxKind.Or("UNKNOWN") && s.key.place == order.placeOfSupply.Or("")
    && s.key.ratePct == if order.taxKind == Some("INTER_STATE") then item.igstRate else item.cgstRate + item.sgstRate
  }

  lemma {:induction false} SuppliesOfAre(order: InvoicedOrder, upTo: nat)
    requires upTo <= |order.items|
    ensures |SuppliesOf(order, upTo)| == upTo
    ensures forall j | 0 <= j < upTo :: IsSupplyOf(SuppliesOf(order, upTo)[j], order, order.items[j])
  {
    if upTo > 0 { SuppliesOfAre(order, upTo - 1); }
  }

  function ItemsIn(): InvoicedOrder -> int { (o: InvoicedOrder) => |o.items| }

  /** There is one supply for each item, and every one is that of an item. */
  lemma {:induction false} SuppliesAre(orders: seq<InvoicedOrder>)
    ensures |Supplies(orders)| == Sum(orders, ItemsIn())
    ensures forall s | s in Supplies(orders) ::
              exists o, item | o in orders && item in o.items :: IsSupplyOf(s, o, item)
  {
    if orders != [] {
      var init, last := orders[..|orders| - 1], orders[|orders| - 1];
      assert orders == init + [last];
      SuppliesAre(init);
      SuppliesOfAre(last, |last.items|);
      forall s | s in Supplies(orders)
        ensures exists o, item | o in orders && item in o.items :: IsSupplyOf(s, o, item)
      {
        if s in Supplies(init) {
          var o, item :| o in init && item in o.items && IsSupplyOf(s, o, item);
          assert o in orders;
        } else {
          var j :| 0 <= j < |last.items| && SuppliesOf(last, |last.items|)[j] == s;
          assert last in orders && last.items[j] in last.items;
        }
      }
    }
  }

  /** Ten thousand times the tax less rate times value: nothing, but for rounding. */
  function Off(f: Figures, rate: int): int
  {
    10000 * (f.cgst + f.sgst + f.igst) - f.taxable * rate
  }

  /** The item's taxes are those of its order's regime at its own rates, to within e. */
  ghost predicate TaxedAtItsRate(order: InvoicedOrder, item: InvoiceItem, e: int)
  {
    -e <= Off(item.figures, if order.taxKind == Some("INTER_STATE") then item.igstRate
                            else item.cgstRate + item.sgstRate) <= e
  }

  function One(): Supply -> int { (s: Supply) => 1 }

  function OffAt(rate: int): Supply -> int { (s: Supply) => Off(s.figures, rate) }

  lemma {:induction false} WithinForEach(supplies: seq<Supply>, k: BucketKey, f: Supply -> int, e: int)
    requires forall s | s in supplies && s.key == k :: -e <= f(s) <= e
    ensures var n := GroupSum(supplies, Bucket(), k, One());
            n >= 0 && -(n * e) <= GroupSum(supplies, Bucket(), k, f) <= n * e
  {
    if supplies != [] {
      var init, last := supplies[..|supplies| - 1], supplies[|supplies| - 1];
      assert supplies == init + [last];
      WithinForEach(init, k, f, e);
      assert last in supplies;
      Distribute(GroupSum(init, Bucket(), k, One()), 1, e);
    }
  }

  lemma {:induction false} Distribute(n: int, m: int, e: int)
    ensures (n + m) * e == n * e + m * e
  {
  }

  lemma {:induction false} OffOfGroup(supplies: seq<Supply>, k: BucketKey, rate: int)
    ensures GroupSum(supplies, Bucket(), k, OffAt(rate))
            == 10000 * (GroupSum(supplies, Bucket(), k, Under(CgstTax))
                        + GroupSum(supplies, Bucket(), k, Under(SgstTax))
                        + GroupSum(supplies, Bucket(), k, Under(IgstTax)))
               - GroupSum(supplies, Bucket(), k, Under(Taxable)) * rate
  {
    if supplies != [] {
      var init, last := supplies[..|supplies| - 1], supplies[|supplies| - 1];
      OffOfGroup(init, k, rate);
      Distribute(GroupSum(init, Bucket(), k, Under(Taxable)), last.figures.taxable, rate);
    }
  }

  lemma {:induction false} OffAddsUp(supplies: seq<Supply>, k: BucketKey, f: Figures, e: int)
    requires forall s | s in supplies && s.key == k :: -e <= Off(s.figures, k.ratePct) <= e
    requires forall h: Heading :: f.At(h) == GroupSum(supplies, Bucket(), k, Under(h))
    ensures var n := GroupSum(supplies, Bucket(), k, One()); n >= 0 && -(n * e) <= Off(f, k.ratePct) <= n * e
  {
    assert f.taxable == f.At(Taxable) && f.cgst == f.At(CgstTax) && f.sgst == f.At(SgstTax) && f.igst == f.At(IgstTax);
    WithinForEach(supplies, k, OffAt(k.ratePct), e);
    OffOfGroup(supplies, k, k.ratePct);
  }

  lemma {:induction false} SupplyTaxed(s: Supply, order: InvoicedOrder, item: InvoiceItem, e: int)
    requires IsSupplyOf(s, order, item) && TaxedAtItsRate(order, item, e)
    ensures -e <= Off(s.figures, s.key.ratePct) <= e
  {
  }

  /** The rate of a bucket is the rate of the taxes in it: if every item is taxed at its rate to
      within e, a bucket of n items is taxed at the bucket's to within n times e. */
  lemma {:induction false} BucketTaxedAtItsRate(orders: seq<InvoicedOrder>, buckets: map<BucketKey, Figures>,
                                                k: BucketKey, e: int)
    requires AreBuckets(buckets, Supplies(orders)) && k in buckets
    requires forall o, item | o in orders && item in o.items :: TaxedAtItsRate(o, item, e)
    ensures var n := GroupSum(Supplies(orders), Bucket(), k, One());
            n >= 0 && -(n * e) <= Off(buckets[k], k.ratePct) <= n * e
  {
    SuppliesAre(orders);
    forall s | s in Supplies(orders) && s.key == k ensures -e <= Off(s.figures, k.ratePct) <= e {
      var o, item :| o in orders && item in o.items && IsSupplyOf(s, o, item);
      SupplyTaxed(s, o, item, e);
    }
    OffAddsUp(Supplies(orders), k, buckets[k], e);
  }

  function Bucket(): Supply -> BucketKey { (s: Supply) => s.key }

  function Under(h: Heading): Supply -> int { (s: Supply) => s.figures.At(h) }

  ghost predicate IsTotal(f: Figures, supplies: seq<Supply>)
  {
    forall h: Heading :: f.At(h) == Sum(supplies, Under(h))
  }

  /** Each bucket holds the sum of its own supplies, and only keys that occur have one. */
  ghost predicate AreBuckets(buckets: map<BucketKey, Figures>, supplies: seq<Supply>)
  {
    && (forall k :: k in buckets <==> exists s | s in supplies :: s.key == k)
    && (forall k, h: Heading | k in buckets :: buckets[k].At(h) == GroupSum(supplies, Bucket(), k, Under(h)))
  }

  lemma {:induction false} OneMoreSupply(buckets: map<BucketKey, Figures>, grand: Figures, supplies: seq<Supply>,
                                         s: Supply)
    requires AreBuckets(buckets, supplies) && IsTotal(grand, supplies)
    ensures var before := if s.key in buckets then buckets[s.key] else NO_FIGURES;
            AreBuckets(buckets[s.key := before.Plus(s.figures)], supplies + [s])
    ensures IsTotal(grand.Plus(s.figures), supplies + [s])
  {
    var before := if s.key in buckets then buckets[s.key] else NO_FIGURES;
    var next := buckets[s.key := before.Plus(s.figures)];
    forall h: Heading ensures grand.Plus(s.figures).At(h) == Sum(supplies + [s], Under(h)) {
      SumSnoc(supplies, s, Under(h));
    }
    forall k ensures k in next <==> exists x | x in supplies + [s] :: x.key == k {
      if k == s.key {
        assert s in supplies + [s];
      } else if exists x | x in supplies :: x.key == k {
        var x :| x in supplies && x.key == k;
        assert x in supplies + [s];
      }
    }
    forall k, h: Heading | k in next ensures next[k].At(h) == GroupSum(supplies + [s], Bucket(), k, Under(h)) {
      SumSnoc(supplies, s, Only(Bucket(), k, Under(h)));
      if k !in buckets {
        SumZero(supplies, Only(Bucket(), k, Under(h)));
      }
    }
  }

  /** The buckets partition the supplies: over any listing of the keys, the unrounded
      bucket sums add up to the grand total under every heading. */
  lemma {:induction false} BucketsAddUp(buckets: map<BucketKey, Figures>, grand: Figures, supplies: seq<Supply>,
                                        keys: seq<BucketKey>, h: Heading)
    requires AreBuckets(buckets, supplies) && IsTotal(grand, supplies)
    requires Distinct(keys) && (forall k :: k in keys <==> k in buckets)
    ensures Sum(keys, InBucket(buckets, h)) == grand.At(h)
  {
    forall s | s in supplies ensures Bucket()(s) in keys {
      assert s.key in buckets;
    }
    GroupsAddUp(supplies, keys, Bucket(), Under(h));
    SumEqual(keys, InBucket(buckets, h), PerGroup(supplies, Bucket(), Under(h)));
  }

  /** The export rounds every bucket and the summary to paise on their own: under a heading kept
      in hundredths of a paisa, n exported buckets add up to within (n + 1)/2 paise of it. */
  lemma {:induction false} ExportedBucketsTieOut(buckets: map<BucketKey, Figures>, grand: Figures,
                                                 supplies: seq<Supply>, keys: seq<BucketKey>, h: Heading)
    requires AreBuckets(buckets, supplies) && IsTotal(grand, supplies)
    requires Distinct(keys) && (forall k :: k in keys <==> k in buckets)
    ensures var drift := Sum(keys, Rounded(InBucket(buckets, h))) - HalfAway(grand.At(h) as real / 100.0);
            -(|keys| + 1) <= 2 * drift <= |keys| + 1
  {
    BucketsAddUp(buckets, grand, supplies, keys, h);
    RoundedParts(keys, InBucket(buckets, h));
  }

  function InBucket(buckets: map<BucketKey, Figures>, h: Heading): BucketKey -> int
  {
    (k: BucketKey) => if k in buckets then buckets[k].At(h) else 0
  }
}
