/** How much rounding can leave unreversed: the bound on covering refunds is reached. */
module TcsLedgerLosses {
  import opened Options
  import opened Rounding
  import opened Sums
  import opened TcsLedger
  import opened TcsLedgerProofs
  import opened TcsLedgerCoverage

  // ---- the bound is reached -----------------------------------------------------

  /** A ledger whose one accrual holds m paise each of CGST and SGST. */
  function OneAccrual(m: nat): seq<Row>
  {
    Accrue([], Some(SellerOrder("so", "store", "seller", Some(IntraState), 0)), [OrderItem(20000 * m, None)], "2026-01")
  }

  /** One seller order sold for n paise. */
  function Sold(n: nat): seq<Scoped> { [Scoped("so", n, 0, 0, 0)] }

  /** The first k of n refunds of a paisa each. */
  function Parts(k: nat, n: nat): (reqs: seq<Request>)
    ensures |reqs| == k
    ensures forall i | 0 <= i < k :: reqs[i] == Request(Refund(seq(i, _ => 'r'), 1, Some("so")), Sold(n), "2026-02")
  {
    if k == 0 then []
    else Parts(k - 1, n) + [Request(Refund(seq(k - 1, _ => 'r'), 1, Some("so")), Sold(n), "2026-02")]
  }

  /** One accrual of m paise of CGST, and nothing reversed. */
  ghost predicate Untouched(rows: seq<Row>, m: nat)
  {
    && Sound(rows) && AccrualOf(rows, "so").Some? && Balance(rows, "so", Cgst) == Accrued(rows, "so", Cgst) == m
    && forall id: string :: !HasReversal(rows, "so", id)
  }

  lemma {:induction false} TaxOfTwentyThousands(m: nat)
    ensures TaxAt(20000 * m, TCS_CGST_RATE_BPS) == m
  {
    assert (20000 * m * 50) as real / 1000000.0 == m as real;
    HalfAwayOfWhole(m);
  }

  lemma {:induction false} OneAccrualIs(m: nat)
    requires m > 0
    ensures OneAccrual(m) == [Row(Accrual, "2026-01", "store", "seller", "so", Amounts(20000 * m, m, m, 0),
                                  TCS_TOTAL_RATE_BPS, IntraState)]
  {
    var so, item := SellerOrder("so", "store", "seller", Some(IntraState), 0), OrderItem(20000 * m, None);
    SumSnoc([], item, Collectible());
    assert [] + [item] == [item];
    assert Base(so, [item]) == 20000 * m;
    TaxOfTwentyThousands(m);
  }

  lemma {:induction false} EmptySound()
    ensures Sound([])
  {
    assert forall order: string, c: Component :: Balance([], order, c) == 0;
  }

  lemma {:induction false} OneAccrualUntouched(m: nat)
    requires m > 0
    ensures Untouched(OneAccrual(m), m)
  {
    EmptySound();
    AccrueSound([], Some(SellerOrder("so", "store", "seller", Some(IntraState), 0)),
                [OrderItem(20000 * m, None)], "2026-01");
    OneAccrualIs(m);
    var row := OneAccrual(m)[0];
    AccrualOfSnoc([], row, "so");
    SumSnoc([], row, On("so", Cgst));
    assert [] + [row] == [row];
  }

  lemma {:induction false} HalfIsLost(m: nat)
    ensures Slice(m, 1.0 / (2 * m + 1) as real) == 0
  {
    var p := 1.0 / (2 * m + 1) as real;
    assert p * (2 * m + 1) as real == 1.0;
    assert 2.0 * (m as real * p) + p == 1.0;
  }

  lemma {:induction false} PartsFresh(rows: seq<Row>, k: nat, n: nat)
    requires n > 0 && forall id: string :: !HasReversal(rows, "so", id)
    ensures FreshRefunds(rows, Parts(k, n), "so")
    ensures Sum(Parts(k, n), RefundAmount()) == k
  {
    assert Sold(n)[0].id == "so" && Sold(n)[0] in Sold(n) && Sold(n)[..0] == [];
    assert Covers(Sold(n), "so");
    PartsAmount(k, n);
    forall i, j | 0 <= i < j < k ensures Parts(k, n)[i].refund.id != Parts(k, n)[j].refund.id {
      assert |Parts(k, n)[i].refund.id| == i && |Parts(k, n)[j].refund.id| == j;
    }
  }

  lemma {:induction false} PartsAmount(k: nat, n: nat)
    ensures Sum(Parts(k, n), RefundAmount()) == k
  {
    if k > 0 {
      PartsAmount(k - 1, n);
      assert Parts(k, n)[..k - 1] == Parts(k - 1, n);
    }
  }

  lemma {:induction false} PartTakesNothing(m: nat, refund: Refund)
    requires m > 0 && refund.orderId == Some("so") && refund.amount == 1
    ensures GrossOf(Sold(2 * m + 1), "so") == 2 * m + 1
    ensures Taken(m, m, Share(refund, Sold(2 * m + 1), "so")) == 0
  {
    ShareOfAmount(refund, Sold(2 * m + 1), "so");
    HalfIsLost(m);
    assert 1.0 / (2 * m + 1) as real <= 1.0;
  }

  /** Refunds whose shares all round to nothing leave the whole accrual. */
  lemma {:induction false} NothingTaken(rows: seq<Row>, reqs: seq<Request>, order: string, c: Component, m: nat)
    requires Sound(rows) && AccrualOf(rows, order).Some? && FreshRefunds(rows, reqs, order)
    requires Balance(rows, order, c) == Accrued(rows, order, c) == m
    requires forall q | q in reqs :: Taken(m, m, Share(q.refund, q.scoped, order)) == 0
    ensures Balance(RunRefunds(rows, reqs), order, c) == m
  {
    if reqs != [] {
      var init, last := reqs[..|reqs| - 1], reqs[|reqs| - 1];
      assert last in reqs && forall q | q in init :: q in reqs;
      NothingTaken(rows, init, order, c, m);
      LastRefundTakes(rows, reqs, order, c);
    }
  }

  lemma {:induction false} PartsAre(m: nat, k: nat)
    requires m > 0
    ensures forall q | q in Parts(k, 2 * m + 1) ::
              && q.refund.orderId == Some("so") && q.scoped == Sold(2 * m + 1)
              && Covers(q.scoped, "so") && Taken(m, m, Share(q.refund, q.scoped, "so")) == 0
  {
    assert Sold(2 * m + 1)[0].id == "so" && Sold(2 * m + 1)[0] in Sold(2 * m + 1);
    forall q | q in Parts(k, 2 * m + 1) ensures Taken(m, m, Share(q.refund, Sold(2 * m + 1), "so")) == 0 {
      PartTakesNothing(m, q.refund);
    }
  }

  lemma {:induction false} PartsLeaveAll(rows: seq<Row>, m: nat, n: nat)
    requires m > 0 && n == 2 * m + 1 && Untouched(rows, m)
    ensures FreshRefunds(rows, Parts(n, n), "so") && Sum(Parts(n, n), RefundAmount()) == n == GrossOf(Sold(n), "so")
    ensures Balance(RunRefunds(rows, Parts(n, n)), "so", Cgst) == m
  {
    PartsFresh(rows, n, n);
    PartsAre(m, n);
    NothingTaken(rows, Parts(n, n), "so", Cgst, m);
    PartTakesNothing(m, Refund("", 1, Some("so")));
  }

  /** The bound of RefundsCoveringGross is reached for every odd number of refunds: 2m + 1 equal
      parts of the gross reverse nothing of m paise. With m = 1, three thirds leave the paisa. */
  lemma {:induction false} EqualPartsLeaveAll(m: nat)
    requires m > 0
    ensures var rows, reqs, scoped := OneAccrual(m), Parts(2 * m + 1, 2 * m + 1), Sold(2 * m + 1);
            && Sound(rows) && AccrualOf(rows, "so").Some? && FreshRefunds(rows, reqs, "so")
            && (forall q | q in reqs :: q.refund.orderId == Some("so") && q.scoped == scoped)
            && Sum(reqs, RefundAmount()) == GrossOf(scoped, "so")
            && 2 * Balance(RunRefunds(rows, reqs), "so", Cgst) == |reqs| - 1
  {
    OneAccrualUntouched(m);
    PartsLeaveAll(OneAccrual(m), m, 2 * m + 1);
    PartsAre(m, 2 * m + 1);
  }
}
