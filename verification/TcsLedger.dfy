/** The section 52 ledger: what accrue and reverse write, and what every run of them keeps.
    Tax is held in whole paise, taxable value in ten-thousandths of a rupee. */
module TcsLedger {
  import opened Options
  import opened Rounding
  import opened Sums

  const TCS_CGST_RATE_BPS := 50
  const TCS_SGST_RATE_BPS := 50
  const TCS_IGST_RATE_BPS := 100
  const TCS_TOTAL_RATE_BPS := 100
  const TCS_INCLUDE_SHIPPING_IN_BASE := true
  const TCS_EXEMPT_HSN_PREFIXES: seq<string> := []
  const TCS_MIN_TAXABLE_VALUE := 0

  datatype TaxKind = IntraState | InterState

  /** The columns a ledger row sums over. */
  datatype Component = Net | Cgst | Sgst | Igst

  datatype Amounts = Amounts(net: int, cgst: int, sgst: int, igst: int)
  {
    function At(c: Component): int
    {
      match c
      case Net => net
      case Cgst => cgst
      case Sgst => sgst
      case Igst => igst
    }
  }

  /** A reversal names the refund that caused it; an accrual has none. */
  datatype Kind = Accrual | Reversal(refundId: string)

  datatype Row = Row(kind: Kind, period: string, storeId: string, sellerId: string, orderId: string,
                     amounts: Amounts, rateBps: int, taxKind: TaxKind)

  /** A seller order as accrue reads it; an unrecognised tax kind reads as None. */
  datatype SellerOrder = SellerOrder(id: string, storeId: string, sellerId: string,
                                     taxKind: Option<TaxKind>, shippingTaxableValue: int)

  datatype OrderItem = OrderItem(taxableValue: int, hsnCode: Option<string>)

  /** A seller order as reverse reads it, in paise. */
  datatype Scoped = Scoped(id: string, subtotal: int, taxAmount: int, shippingAmount: int, discountAmount: int)
  {
    function Gross(): int { subtotal + taxAmount + shippingAmount - discountAmount }
  }

  datatype Refund = Refund(id: string, amount: int, orderId: Option<string>)

  // ---- inserting under the two partial unique indexes -------------------------

  /** One ACCRUAL per seller order, one REVERSAL per seller order and refund. */
  predicate SameKey(a: Row, b: Row)
  {
    a.orderId == b.orderId && a.kind == b.kind
  }

  /** createMany with skipDuplicates, for one row. */
  function InsertSkip(rows: seq<Row>, r: Row): seq<Row>
  {
    if exists a | a in rows :: SameKey(a, r) then rows else rows + [r]
  }

  function InsertAll(rows: seq<Row>, batch: seq<Row>): seq<Row>
  {
    if batch == [] then rows
    else InsertSkip(InsertAll(rows, batch[..|batch| - 1]), batch[|batch| - 1])
  }

  // ---- accrual ----------------------------------------------------------------

  predicate IsExemptHsn(hsn: Option<string>)
  {
    hsn.Some? && hsn.value != "" && exists p | p in TCS_EXEMPT_HSN_PREFIXES :: p <= hsn.value
  }

  function Collectible(): OrderItem -> int
  {
    (it: OrderItem) => if IsExemptHsn(it.hsnCode) then 0 else it.taxableValue
  }

  function Base(so: SellerOrder, items: seq<OrderItem>): int
  {
    Sum(items, Collectible()) + if TCS_INCLUDE_SHIPPING_IN_BASE then so.shippingTaxableValue else 0
  }

  /** bps of a taxable value in ten-thousandths of a rupee, in whole paise. */
  function TaxAt(base: int, bps: int): int
  {
    HalfAway((base * bps) as real / 1000000.0)
  }

  function Split(base: int, taxKind: TaxKind): Amounts
  {
    match taxKind
    case IntraState => Amounts(base, TaxAt(base, TCS_CGST_RATE_BPS), TaxAt(base, TCS_SGST_RATE_BPS), 0)
    case InterState => Amounts(base, 0, 0, TaxAt(base, TCS_IGST_RATE_BPS))
  }

  function AccrualRow(so: SellerOrder, items: seq<OrderItem>, period: string): Option<Row>
  {
    if so.taxKind.None? || Base(so, items) <= TCS_MIN_TAXABLE_VALUE then None
    else Some(Row(Accrual, period, so.storeId, so.sellerId, so.id,
                  Split(Base(so, items), so.taxKind.value), TCS_TOTAL_RATE_BPS, so.taxKind.value))
  }

  function Accrue(rows: seq<Row>, found: Option<SellerOrder>, items: seq<OrderItem>, period: string): seq<Row>
  {
    if found.None? || AccrualRow(found.value, items, period).None? then rows
    else InsertSkip(rows, AccrualRow(found.value, items, period).value)
  }

  // ---- reversal ---------------------------------------------------------------

  /** The accrual of an order, as the Map built from the query answers it. */
  function AccrualOf(rows: seq<Row>, order: string): Option<Row>
  {
    if rows == [] then None
    else
      var last := rows[|rows| - 1];
      if last.kind.Accrual? && last.orderId == order then Some(last)
      else AccrualOf(rows[..|rows| - 1], order)
  }

  /** What earlier refunds reversed on an order: a refund's own rows are excluded. */
  function Prior(order: string, refund: string, c: Component): Row -> int
  {
    (r: Row) => if r.orderId == order && r.kind.Reversal? && r.kind.refundId != refund then r.amounts.At(c) else 0
  }

  /** grossBySo.get(id): a later entry for the same id overwrites an earlier one. */
  function GrossOf(scoped: seq<Scoped>, id: string): int
  {
    if scoped == [] then 0
    else if scoped[|scoped| - 1].id == id then scoped[|scoped| - 1].Gross()
    else GrossOf(scoped[..|scoped| - 1], id)
  }

  function GrossIn(scoped: seq<Scoped>): Scoped -> int
  {
    (s: Scoped) => GrossOf(scoped, s.id)
  }

  function OrderGross(scoped: seq<Scoped>): int
  {
    Sum(scoped, GrossIn(scoped))
  }

  /** The refund amount attributable to one seller order: all of a scoped refund, a
      pro-rata part by gross of an order-level one. */
  function RefundShare(refund: Refund, gross: int, orderGross: int): real
  {
    if refund.orderId.Some? then refund.amount as real
    else if orderGross > 0 then refund.amount as real * gross as real / orderGross as real
    else 0.0
  }

  /** The part of an order's gross that a refund covers, before the cap at 1. */
  function Share(refund: Refund, scoped: seq<Scoped>, id: string): real
    requires GrossOf(scoped, id) > 0
  {
    RefundShare(refund, GrossOf(scoped, id), OrderGross(scoped)) / GrossOf(scoped, id) as real
  }

  function ClampMag(proposed: int, accrued: int, priorSum: int): int
  {
    var remaining := accrued + priorSum;
    var cap := if remaining < 0 then 0 else remaining;
    if proposed > cap then cap else proposed
  }

  /** The proportional slice of a column, rounded to its unit. */
  function Slice(amount: int, proportion: real): (r: int)
    ensures amount >= 0 && proportion > 0.0 ==> r >= 0
  {
    HalfAway(amount as real * proportion)
  }

  function Magnitude(rows: seq<Row>, accr: Row, refund: Refund, proportion: real, c: Component): int
  {
    ClampMag(Slice(accr.amounts.At(c), proportion), accr.amounts.At(c),
             Sum(rows, Prior(accr.orderId, refund.id, c)))
  }

  function ReversalRow(rows: seq<Row>, refund: Refund, scoped: seq<Scoped>, id: string, period: string): Option<Row>
  {
    var accrual := AccrualOf(rows, id);
    if accrual.None? || GrossOf(scoped, id) <= 0 then None
    else
      var share := Share(refund, scoped, id);
      var proportion := if share > 1.0 then 1.0 else share;
      if proportion <= 0.0 then None
      else
        var accr := accrual.value;
        var net := Magnitude(rows, accr, refund, proportion, Net);
        var cgst := Magnitude(rows, accr, refund, proportion, Cgst);
        var sgst := Magnitude(rows, accr, refund, proportion, Sgst);
        var igst := Magnitude(rows, accr, refund, proportion, Igst);
        if cgst <= 0 && sgst <= 0 && igst <= 0 && net <= 0 then None
        else Some(Row(Reversal(refund.id), period, accr.storeId, accr.sellerId, id,
                      Amounts(-net, -cgst, -sgst, -igst), accr.rateBps, accr.taxKind))
  }

  function Candidate(rows: seq<Row>, refund: Refund, scoped: seq<Scoped>, period: string): string -> Option<Row>
  {
    (id: string) => ReversalRow(rows, refund, scoped, id, period)
  }

  /** The rows a loop over the scoped orders pushes. */
  function Collect(scoped: seq<Scoped>, candidate: string -> Option<Row>): seq<Row>
  {
    if scoped == [] then []
    else
      var before := Collect(scoped[..|scoped| - 1], candidate);
      var row := candidate(scoped[|scoped| - 1].id);
      if row.None? then before else before + [row.value]
  }

  /** Every candidate row of one call is computed from the same ledger. */
  function ReversalRows(rows: seq<Row>, refund: Refund, scoped: seq<Scoped>, period: string): seq<Row>
  {
    Collect(scoped, Candidate(rows, refund, scoped, period))
  }

  function Reverse(rows: seq<Row>, refund: Refund, scoped: seq<Scoped>, period: string): seq<Row>
  {
    InsertAll(rows, ReversalRows(rows, refund, scoped, period))
  }

  // ---- the ledger invariant ---------------------------------------------------

  function On(order: string, c: Component): Row -> int
  {
    (r: Row) => if r.orderId == order then r.amounts.At(c) else 0
  }

  /** Accrued minus reversed, for one order and column. */
  function Balance(rows: seq<Row>, order: string, c: Component): int
  {
    Sum(rows, On(order, c))
  }

  /** The column of the order's accrual, 0 when there is none. */
  function Accrued(rows: seq<Row>, order: string, c: Component): int
  {
    var a := AccrualOf(rows, order);
    if a.None? then 0 else a.value.amounts.At(c)
  }

  ghost predicate UniqueKeys(rows: seq<Row>)
  {
    forall i, j | 0 <= i < j < |rows| :: !SameKey(rows[i], rows[j])
  }

  /** The sign convention the table's CHECK constraint states. */
  ghost predicate Signed(r: Row)
  {
    forall c: Component :: if r.kind.Accrual? then r.amounts.At(c) >= 0 else r.amounts.At(c) <= 0
  }

  /** Unique keys, signed rows, and never more reversed than was accrued. */
  ghost predicate Sound(rows: seq<Row>)
  {
    && UniqueKeys(rows)
    && (forall r | r in rows :: Signed(r))
    && (forall order: string, c: Component :: 0 <= Balance(rows, order, c) <= Accrued(rows, order, c))
  }
}
