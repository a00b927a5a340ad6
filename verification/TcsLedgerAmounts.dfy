/** What the ledger holds in the amounts of the orders themselves: the columns an accrual and a
    reversal are computed from, added up in full. */
module TcsLedgerAmounts {
  import opened Options
  import opened Rounding
  import opened Sums
  import opened TcsLedger
  import opened TcsLedgerProofs
  import opened TcsLedgerCoverage
  import opened TcsLedgerRepeats

  ghost predicate DistinctIds(scoped: seq<Scoped>)
  {
    forall i, j | 0 <= i < j < |scoped| :: scoped[i].id != scoped[j].id
  }

  /** What a buyer paid for a seller order. */
  function Paid(): Scoped -> int
  {
    (s: Scoped) => s.subtotal + s.taxAmount + s.shippingAmount - s.discountAmount
  }

  lemma {:induction false} GrossIsPaid(scoped: seq<Scoped>, i: nat)
    requires DistinctIds(scoped) && i < |scoped|
    ensures GrossOf(scoped, scoped[i].id) == Paid()(scoped[i])
  {
    if i < |scoped| - 1 { GrossIsPaid(scoped[..|scoped| - 1], i); }
  }

  lemma {:induction false} OrderGrossIsPaid(scoped: seq<Scoped>)
    requires DistinctIds(scoped)
    ensures OrderGross(scoped) == Sum(scoped, Paid())
  {
    forall s | s in scoped ensures GrossIn(scoped)(s) == Paid()(s) {
      var i :| 0 <= i < |scoped| && scoped[i] == s;
      GrossIsPaid(scoped, i);
    }
    SumEqual(scoped, GrossIn(scoped), Paid());
  }

  /** n of a denominator off a column. */
  function PartOf(accrued: int, n: int, denominator: int): int
    requires denominator > 0
  {
    HalfAway(accrued as real * (n as real / denominator as real))
  }

  lemma {:induction false} TakenPart(accrued: int, balance: int, n: int, denominator: int)
    requires 0 <= balance <= accrued && 0 < n <= denominator
    ensures Taken(accrued, balance, n as real / denominator as real) == Min(PartOf(accrued, n, denominator), balance)
    ensures PartOf(accrued, n, denominator) <= accrued
    ensures n == denominator ==> PartOf(accrued, n, denominator) == accrued
  {
    Fraction(n, denominator, n as real / denominator as real);
    TakenShare(accrued, balance, n as real / denominator as real);
  }

  lemma {:induction false} TakenShare(accrued: int, balance: int, p: real)
    requires 0 <= balance <= accrued && 0.0 < p <= 1.0
    ensures Taken(accrued, balance, p) == Min(HalfAway(accrued as real * p), balance)
    ensures HalfAway(accrued as real * p) <= accrued
    ensures p == 1.0 ==> HalfAway(accrued as real * p) == accrued
  {
    var part := accrued as real * p;
    PartWithin(accrued as real, p, part);
    HalfUpToWhole(part, accrued);
    HalfAwayOfWhole(accrued);
  }

  lemma {:induction false} Fraction(n: int, d: int, p: real)
    requires 0 < n <= d && p == n as real / d as real
    ensures 0.0 < p <= 1.0 && (n == d ==> p == 1.0)
  {
  }

  lemma {:induction false} PartWithin(x: real, p: real, part: real)
    requires x >= 0.0 && 0.0 <= p <= 1.0 && part == x * p
    ensures 0.0 <= part <= x && (p == 1.0 ==> part == x)
  {
    assert part + x * (1.0 - p) == x;
  }

  lemma {:induction false} HalfUpToWhole(x: real, n: int)
    requires 0.0 <= x <= n as real
    ensures HalfAway(x) <= n
  {
  }

  /** A first refund of n paise scoped to a seller order takes of every column the part that n is of
      what was paid for the order, and all that is left when n is all of it. */
  lemma {:induction false} ScopedRefundTakes(rows: seq<Row>, refund: Refund, scoped: seq<Scoped>, period: string,
                                             i: nat, c: Component)
    requires Sound(rows) && DistinctIds(scoped) && i < |scoped| && refund.orderId.Some?
    requires AccrualOf(rows, scoped[i].id).Some? && !HasReversal(rows, scoped[i].id, refund.id)
    requires 0 < refund.amount <= scoped[i].subtotal + scoped[i].taxAmount + scoped[i].shippingAmount
                                  - scoped[i].discountAmount
    ensures var paid := scoped[i].subtotal + scoped[i].taxAmount + scoped[i].shippingAmount - scoped[i].discountAmount;
            var order, next := scoped[i].id, Reverse(rows, refund, scoped, period);
            var accrued, balance := Accrued(rows, order, c), Balance(rows, order, c);
            && Balance(next, order, c) == balance - Min(PartOf(accrued, refund.amount, paid), balance)
            && (refund.amount == paid ==> Balance(next, order, c) == 0)
            && (balance == accrued ==> Balance(next, order, c) == accrued - PartOf(accrued, refund.amount, paid))
  {
    var order := scoped[i].id;
    GrossIsPaid(scoped, i);
    assert scoped[i] in scoped && Covers(scoped, order);
    ReverseTakes(rows, refund, scoped, period, order, c);
    ShareOfAmount(refund, scoped, order);
    assert 0 <= Balance(rows, order, c) <= Accrued(rows, order, c);
    TakenPart(Accrued(rows, order, c), Balance(rows, order, c), refund.amount, GrossOf(scoped, order));
  }

  /** A first refund of n paise of a whole order takes of every seller order in it the part that n
      is of what was paid for all of them. */
  lemma {:induction false} OrderRefundTakes(rows: seq<Row>, refund: Refund, scoped: seq<Scoped>, period: string, i: nat,
                                            c: Component)
    requires Sound(rows) && DistinctIds(scoped) && i < |scoped| && refund.orderId.None?
    requires AccrualOf(rows, scoped[i].id).Some? && !HasReversal(rows, scoped[i].id, refund.id)
    requires scoped[i].subtotal + scoped[i].taxAmount + scoped[i].shippingAmount - scoped[i].discountAmount > 0
    requires 0 < refund.amount <= Sum(scoped, Paid())
    ensures var order, next := scoped[i].id, Reverse(rows, refund, scoped, period);
            var accrued, balance := Accrued(rows, order, c), Balance(rows, order, c);
            && Balance(next, order, c) == balance - Min(PartOf(accrued, refund.amount, Sum(scoped, Paid())), balance)
            && (refund.amount == Sum(scoped, Paid()) ==> Balance(next, order, c) == 0)
            && (balance == accrued ==>
                  Balance(next, order, c) == accrued - PartOf(accrued, refund.amount, Sum(scoped, Paid())))
  {
    var order := scoped[i].id;
    GrossIsPaid(scoped, i);
    OrderGrossIsPaid(scoped);
    assert scoped[i] in scoped && Covers(scoped, order);
    ReverseTakes(rows, refund, scoped, period, order, c);
    ShareOfAmount(refund, scoped, order);
    assert 0 <= Balance(rows, order, c) <= Accrued(rows, order, c);
    TakenPart(Accrued(rows, order, c), Balance(rows, order, c), refund.amount, OrderGross(scoped));
  }

  /** Nothing is taken for a seller order that is not in scope or for which nothing was paid, nor by
      a refund of nothing. */
  lemma {:induction false} NothingToTake(rows: seq<Row>, refund: Refund, scoped: seq<Scoped>, period: string,
                                         order: string, c: Component)
    requires Sound(rows) && DistinctIds(scoped)
    requires refund.amount <= 0 || forall s | s in scoped ::
               s.id != order || s.subtotal + s.taxAmount + s.shippingAmount - s.discountAmount <= 0
    ensures Balance(Reverse(rows, refund, scoped, period), order, c) == Balance(rows, order, c)
  {
    ReverseEffect(rows, refund, scoped, period, order, c);
    if Open(rows, refund, scoped, order) {
      var i :| 0 <= i < |scoped| && scoped[i].id == order;
      GrossIsPaid(scoped, i);
      ShareOfAmount(refund, scoped, order);
      NoShare(refund, scoped, order);
    }
  }

  lemma {:induction false} NoShare(refund: Refund, scoped: seq<Scoped>, order: string)
    requires GrossOf(scoped, order) > 0 && refund.amount <= 0
    ensures Share(refund, scoped, order) <= 0.0
  {
    var g, o := GrossOf(scoped, order) as real, OrderGross(scoped) as real;
    if refund.orderId.None? && OrderGross(scoped) <= 0 {
      assert RefundShare(refund, GrossOf(scoped, order), OrderGross(scoped)) == 0.0;
    } else {
      ShareOfAmount(refund, scoped, order);
      NotPositive(refund.amount as real, if refund.orderId.Some? then g else o);
    }
  }

  lemma {:induction false} NotPositive(a: real, d: real)
    requires a <= 0.0 && d > 0.0
    ensures a / d <= 0.0
  {
  }

  // ---- the rows -----------------------------------------------------------------

  function TaxableOf(): OrderItem -> int { (it: OrderItem) => it.taxableValue }

  /** The accrual row of a seller order: its own seller and store, this month, all its taxable value
      and that of its shipping, and a hundredth of it in tax, in halves within a state. */
  lemma {:induction false} AccrualIs(rows: seq<Row>, so: SellerOrder, items: seq<OrderItem>, period: string)
    requires AccrualOf(rows, so.id).None?
    ensures var base := Sum(items, TaxableOf()) + so.shippingTaxableValue;
            var next := Accrue(rows, Some(so), items, period);
            && (so.taxKind.None? || base <= 0 ==> next == rows)
            && (so.taxKind.Some? && base > 0 ==>
                  && |next| == |rows| + 1 && next[..|rows|] == rows
                  && var row := next[|rows|];
                     && row.kind.Accrual? && row.orderId == so.id && row.period == period
                     && row.storeId == so.storeId && row.sellerId == so.sellerId
                     && row.taxKind == so.taxKind.value && row.rateBps == 100
                     && row.amounts.net == base
                     && row.amounts.cgst == row.amounts.sgst
                     && row.amounts.cgst
                        == (if row.taxKind.IntraState? then HalfAway(base as real / 20000.0) else 0)
                     && row.amounts.igst
                        == (if row.taxKind.InterState? then HalfAway(base as real / 10000.0) else 0))
  {
    AccrualOfFinds(rows, so.id);
    SumEqual(items, Collectible(), TaxableOf());
    var base := Base(so, items);
    assert (base * 50) as real / 1000000.0 == base as real / 20000.0;
    assert (base * 100) as real / 1000000.0 == base as real / 10000.0;
  }

  /** Every row that a refund adds names the refund and the month, and carries the seller, store,
      rate and regime of the accrual it takes from. */
  lemma {:induction false} ReversalsNameTheirAccrual(rows: seq<Row>, refund: Refund, scoped: seq<Scoped>,
                                                     period: string)
    requires Sound(rows)
    ensures forall r | r in Reverse(rows, refund, scoped, period) && r !in rows ::
              && r.kind == Reversal(refund.id) && r.period == period
              && (exists s | s in scoped :: s.id == r.orderId)
              && exists a | a in rows ::
                   && a.kind.Accrual? && a.orderId == r.orderId && a.sellerId == r.sellerId
                   && a.storeId == r.storeId && a.rateBps == r.rateBps && a.taxKind == r.taxKind
  {
    var candidate, batch := Candidate(rows, refund, scoped, period), ReversalRows(rows, refund, scoped, period);
    CollectedAreCandidates(scoped, candidate);
    AddedAreNew(rows, batch);
    forall r | r in batch
      ensures r.kind == Reversal(refund.id) && r.period == period && (exists s | s in scoped :: s.id == r.orderId)
      ensures exists a | a in rows ::
                && a.kind.Accrual? && a.orderId == r.orderId && a.sellerId == r.sellerId
                && a.storeId == r.storeId && a.rateBps == r.rateBps && a.taxKind == r.taxKind
    {
      var s :| s in scoped && candidate(s.id) == Some(r);
      AccrualOfFinds(rows, s.id);
      assert AccrualOf(rows, s.id).value in rows;
    }
  }

  lemma {:induction false} AddedAreNew(rows: seq<Row>, batch: seq<Row>)
    ensures forall r | r in InsertAll(rows, batch) :: r in rows || r in batch
  {
    if batch != [] {
      AddedAreNew(rows, batch[..|batch| - 1]);
      assert batch == batch[..|batch| - 1] + [batch[|batch| - 1]];
    }
  }
}
