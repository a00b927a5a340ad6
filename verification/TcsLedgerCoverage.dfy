/** Retried refunds change nothing, and refunds that together cover a seller order's gross
    leave less than half a unit each unreversed. */
module TcsLedgerCoverage {
  import opened Options
  import opened Rounding
  import opened Sums
  import opened TcsLedger
  import opened TcsLedgerProofs

  // ---- the effect of one reverse call on one order ----------------------------

  lemma {:induction false} CollectedOf(scoped: seq<Scoped>, candidate: string -> Option<Row>, order: string)
    requires forall id: string :: candidate(id).Some? ==> candidate(id).value.orderId == id
    ensures var batch := Collect(scoped, candidate);
            && (forall r | r in batch && r.orderId == order :: candidate(order) == Some(r))
            && ((exists s | s in scoped :: s.id == order) && candidate(order).Some? ==> candidate(order).value in batch)
  {
    if scoped != [] {
      CollectedOf(scoped[..|scoped| - 1], candidate, order);
      assert scoped == scoped[..|scoped| - 1] + [scoped[|scoped| - 1]];
    }
  }

  /** Inserting a batch in which an order has one distinct row adds that row once. */
  lemma {:induction false} InsertAllBalance(rows: seq<Row>, batch: seq<Row>, refund: string, order: string, row: Row,
                                            c: Component)
    requires row.orderId == order
    requires forall r | r in batch :: r.kind == Reversal(refund) && (r.orderId == order ==> r == row)
    requires !HasReversal(rows, order, refund)
    ensures var next := InsertAll(rows, batch);
            && Balance(next, order, c) == Balance(rows, order, c) + (if row in batch then row.amounts.At(c) else 0)
            && (HasReversal(next, order, refund) <==> row in batch)
  {
    if batch != [] {
      var init, last := batch[..|batch| - 1], batch[|batch| - 1];
      assert batch == init + [last];
      InsertAllBalance(rows, init, refund, order, row, c);
      var mid := InsertAll(rows, init);
      InsertOneBalance(mid, last, order, c);
      if last.orderId == order {
        assert Present(mid, last) <==> row in init;
      } else {
        KeepsReversals(mid, last, refund, order);
      }
    }
  }

  lemma {:induction false} InsertOneBalance(rows: seq<Row>, r: Row, order: string, c: Component)
    ensures Balance(InsertSkip(rows, r), order, c)
            == Balance(rows, order, c) + if r.orderId == order && !Present(rows, r) then r.amounts.At(c) else 0
    ensures Present(InsertSkip(rows, r), r)
  {
    SumSnoc(rows, r, On(order, c));
    assert r in rows + [r];
  }

  lemma {:induction false} KeepsReversals(rows: seq<Row>, r: Row, refund: string, order: string)
    requires r.orderId != order
    ensures HasReversal(InsertSkip(rows, r), order, refund) <==> HasReversal(rows, order, refund)
  {
    var next := InsertSkip(rows, r);
    assert forall a | a in next :: a in rows || a == r;
    assert forall a | a in rows :: a in next;
  }

  /** Reversals of one refund touch neither accruals nor another refund's rows. */
  lemma {:induction false} InsertAllKeeps(rows: seq<Row>, batch: seq<Row>, refund: string, order: string, other: string)
    requires forall r | r in batch :: r.kind == Reversal(refund)
    ensures AccrualOf(InsertAll(rows, batch), order) == AccrualOf(rows, order)
    ensures refund != other ==> (HasReversal(InsertAll(rows, batch), order, other) <==> HasReversal(rows, order, other))
    ensures forall c: Component ::
              Sum(InsertAll(rows, batch), Prior(order, refund, c)) == Sum(rows, Prior(order, refund, c))
  {
    if batch != [] {
      var init, last := batch[..|batch| - 1], batch[|batch| - 1];
      assert batch == init + [last];
      InsertAllKeeps(rows, init, refund, order, other);
      var mid := InsertAll(rows, init);
      AccrualOfSnoc(mid, last, order);
      var next := InsertSkip(mid, last);
      assert forall r | r in next :: r in mid || r == last;
      assert forall r | r in mid :: r in next;
      forall c: Component ensures Sum(next, Prior(order, refund, c)) == Sum(mid, Prior(order, refund, c)) {
        SumSnoc(mid, last, Prior(order, refund, c));
      }
    }
  }

  function Capped(share: real): real { if share > 1.0 then 1.0 else share }

  /** What one new refund takes off an order's balance. */
  function Taken(accrued: int, balance: int, share: real): int
  {
    if share <= 0.0 then 0 else Min(Slice(accrued, Capped(share)), balance)
  }

  ghost predicate Covers(scoped: seq<Scoped>, order: string)
  {
    (exists s | s in scoped :: s.id == order) && GrossOf(scoped, order) > 0
  }

  lemma {:induction false} ReverseTakes(rows: seq<Row>, refund: Refund, scoped: seq<Scoped>, period: string,
                                        order: string, c: Component)
    requires Sound(rows) && AccrualOf(rows, order).Some?
    requires !HasReversal(rows, order, refund.id)
    requires Covers(scoped, order)
    ensures Balance(Reverse(rows, refund, scoped, period), order, c)
            == Balance(rows, order, c)
               - Taken(Accrued(rows, order, c), Balance(rows, order, c), Share(refund, scoped, order))
  {
    var batch := ReversalRows(rows, refund, scoped, period);
    var row := ReversalRow(rows, refund, scoped, order, period);
    var accr := AccrualOf(rows, order).value;
    var share := Share(refund, scoped, order);
    var candidate := Candidate(rows, refund, scoped, period);
    forall id: string ensures candidate(id).Some? ==> candidate(id).value.orderId == id {
      ReversalRowFits(rows, refund, scoped, id, period);
    }
    CollectedOf(scoped, candidate, order);
    ReversalRowsFit(rows, refund, scoped, period);
    ReversalRowFits(rows, refund, scoped, order, period);
    AccrualOfFinds(rows, order);
    if share > 0.0 {
      ColumnOfReversalRow(rows, accr, refund, scoped, order, period, c);
    }
    if row.Some? {
      InsertAllBalance(rows, batch, refund.id, order, row.value, c);
    } else {
      InsertAllBalance(rows, batch, refund.id, order, accr.(kind := Reversal(refund.id)), c);
    }
  }

  /** The column a candidate row takes, read as 0 when there is no row. */
  lemma {:induction false} ColumnOfReversalRow(rows: seq<Row>, accr: Row, refund: Refund, scoped: seq<Scoped>,
                                               order: string, period: string, c: Component)
    requires Sound(rows) && AccrualOf(rows, order) == Some(accr)
    requires !HasReversal(rows, order, refund.id)
    requires GrossOf(scoped, order) > 0 && Share(refund, scoped, order) > 0.0
    ensures var row := ReversalRow(rows, refund, scoped, order, period);
            Min(Slice(accr.amounts.At(c), Capped(Share(refund, scoped, order))), Balance(rows, order, c))
            == if row.Some? then -row.value.amounts.At(c) else 0
  {
    var p := Capped(Share(refund, scoped, order));
    AccrualOfFinds(rows, order);
    forall d: Component
      ensures Magnitude(rows, accr, refund, p, d) >= 0
      ensures Magnitude(rows, accr, refund, p, d) == Min(Slice(accr.amounts.At(d), p), Balance(rows, order, d))
    {
      assert Signed(accr);
      assert 0 <= Balance(rows, order, d);
      MagnitudeWithinBalance(rows, accr, refund, p, d);
    }
  }

  // ---- a retried refund -------------------------------------------------------

  lemma {:induction false} InsertPresent(rows: seq<Row>, batch: seq<Row>)
    requires forall r | r in batch :: Present(rows, r)
    ensures InsertAll(rows, batch) == rows
  {
    if batch != [] {
      InsertPresent(rows, batch[..|batch| - 1]);
      assert batch[|batch| - 1] in batch;
    }
  }

  lemma {:induction false} InsertAllHolds(rows: seq<Row>, batch: seq<Row>)
    ensures forall r | r in batch || Present(rows, r) :: Present(InsertAll(rows, batch), r)
  {
    if batch != [] {
      var init, last := batch[..|batch| - 1], batch[|batch| - 1];
      assert batch == init + [last];
      InsertAllHolds(rows, init);
      var mid, next := InsertAll(rows, init), InsertAll(rows, batch);
      assert forall r | r in mid :: r in next;
      assert Present(next, last) by {
        if !Present(mid, last) { assert last in next; }
      }
    }
  }

  lemma {:induction false} SameCollected(scoped: seq<Scoped>, first: string -> Option<Row>,
                                         again: string -> Option<Row>, period: string)
    requires forall id: string :: again(id).Some? ==> first(id) == Some(again(id).value.(period := period))
    ensures forall r | r in Collect(scoped, again) :: r.(period := period) in Collect(scoped, first)
  {
    if scoped != [] {
      SameCollected(scoped[..|scoped| - 1], first, again, period);
    }
  }

  /** Finalizing a refund a second time, in whatever month, writes nothing. */
  lemma {:induction false} RetryWritesNothing(rows: seq<Row>, refund: Refund, scoped: seq<Scoped>, period: string,
                                              later: string)
    requires Sound(rows)
    ensures var once := Reverse(rows, refund, scoped, period);
            Reverse(once, refund, scoped, later) == once
  {
    var batch := ReversalRows(rows, refund, scoped, period);
    var once := InsertAll(rows, batch);
    ReversalRowsFit(rows, refund, scoped, period);
    forall order: string
      ensures AccrualOf(once, order) == AccrualOf(rows, order)
      ensures forall c: Component :: Sum(once, Prior(order, refund.id, c)) == Sum(rows, Prior(order, refund.id, c))
    {
      InsertAllKeeps(rows, batch, refund.id, order, refund.id);
    }
    var first, repeat := Candidate(rows, refund, scoped, period), Candidate(once, refund, scoped, later);
    forall id: string ensures repeat(id).Some? ==> first(id) == Some(repeat(id).value.(period := period)) {
      AccrualOfFinds(rows, id);
    }
    SameCollected(scoped, first, repeat, period);
    InsertAllHolds(rows, batch);
    assert once == Reverse(rows, refund, scoped, period);
    var again := ReversalRows(once, refund, scoped, later);
    forall r | r in again ensures Present(once, r) {
      var twin := r.(period := period);
      assert Present(once, twin);
    }
    InsertPresent(once, again);
  }

  // ---- refunds that cover the gross -------------------------------------------

  datatype Request = Request(refund: Refund, scoped: seq<Scoped>, period: string)

  function RunRefunds(rows: seq<Row>, reqs: seq<Request>): seq<Row>
  {
    if reqs == [] then rows
    else
      var last := reqs[|reqs| - 1];
      Reverse(RunRefunds(rows, reqs[..|reqs| - 1]), last.refund, last.scoped, last.period)
  }

  /** Distinct refunds, new to this order, each of which has the order in scope. */
  ghost predicate FreshRefunds(rows: seq<Row>, reqs: seq<Request>, order: string)
  {
    && (forall q | q in reqs :: Covers(q.scoped, order) && !HasReversal(rows, order, q.refund.id))
    && (forall i, j | 0 <= i < j < |reqs| :: reqs[i].refund.id != reqs[j].refund.id)
  }

  function Shares(reqs: seq<Request>, order: string): (shares: seq<real>)
    requires forall q | q in reqs :: GrossOf(q.scoped, order) > 0
    ensures |shares| == |reqs|
  {
    if reqs == [] then []
    else
      assert reqs[|reqs| - 1] in reqs;
      assert forall q | q in reqs[..|reqs| - 1] :: q in reqs;
      Shares(reqs[..|reqs| - 1], order) + [Share(reqs[|reqs| - 1].refund, reqs[|reqs| - 1].scoped, order)]
  }

  function RealSum(xs: seq<real>): real
  {
    if xs == [] then 0.0 else RealSum(xs[..|xs| - 1]) + xs[|xs| - 1]
  }

  /** What may be left of an accrual after k refunds of a total share. */
  function Slack(accrued: int, covered: real, k: nat): (r: real)
    ensures covered == 0.0 ==> r == accrued as real + k as real / 2.0
    ensures accrued >= 0 && covered >= 1.0 ==> r <= k as real / 2.0
  {
    NonPositiveProduct(accrued as real, 1.0 - covered);
    accrued as real * (1.0 - covered) + k as real / 2.0
  }

  lemma {:induction false} NonPositiveProduct(a: real, b: real)
    ensures a >= 0.0 && b <= 0.0 ==> a * b <= 0.0
  {
  }

  /** A slice loses less than half a unit against the exact share. */
  lemma {:induction false} TakenBound(accrued: int, balance: int, share: real, covered: real, k: nat)
    requires 0 <= balance <= accrued
    requires balance == 0 || balance as real <= Slack(accrued, covered, k)
    ensures var left := balance - Taken(accrued, balance, share);
            left == 0 || (left as real) < Slack(accrued, covered + share, k + 1)
  {
    var a := accrued as real;
    assert a * (1.0 - (covered + share)) == a * (1.0 - covered) - a * share;
    if share <= 0.0 {
      NonPositiveProduct(a, share);
    } else if share <= 1.0 {
      NonPositiveProduct(a, -share);
      assert Slice(accrued, share) as real > a * share - 0.5;
    } else {
      assert a * 1.0 == a;
      HalfAwayOfWhole(accrued);
    }
  }

  /** A run of refunds keeps the ledger sound, the accruals, and every other refund's rows. */
  lemma {:induction false} RunRefundsKeeps(rows: seq<Row>, reqs: seq<Request>, order: string)
    requires Sound(rows)
    ensures var next := RunRefunds(rows, reqs);
            && Sound(next)
            && AccrualOf(next, order) == AccrualOf(rows, order)
            && (forall id: string | (forall q | q in reqs :: q.refund.id != id) ::
                  HasReversal(next, order, id) <==> HasReversal(rows, order, id))
  {
    if reqs != [] {
      var init, last := reqs[..|reqs| - 1], reqs[|reqs| - 1];
      assert last in reqs && forall q | q in init :: q in reqs;
      RunRefundsKeeps(rows, init, order);
      var mid := RunRefunds(rows, init);
      ReverseSound(mid, last.refund, last.scoped, last.period);
      var batch := ReversalRows(mid, last.refund, last.scoped, last.period);
      ReversalRowsFit(mid, last.refund, last.scoped, last.period);
      forall id: string | forall q | q in reqs :: q.refund.id != id
        ensures HasReversal(RunRefunds(rows, reqs), order, id) <==> HasReversal(rows, order, id)
      {
        InsertAllKeeps(mid, batch, last.refund.id, order, id);
      }
      InsertAllKeeps(mid, batch, last.refund.id, order, last.refund.id);
    }
  }

  /** Balances that each refund lowers by its slice. */
  ghost predicate TakenInTurn(accrued: int, balances: seq<int>, shares: seq<real>)
  {
    && |balances| == |shares| + 1
    && (forall i | 0 <= i < |balances| :: 0 <= balances[i] <= accrued)
    && (forall i | 0 <= i < |shares| :: balances[i + 1] == balances[i] - Taken(accrued, balances[i], shares[i]))
  }

  lemma {:induction false} LeftAfter(accrued: int, balances: seq<int>, shares: seq<real>)
    requires TakenInTurn(accrued, balances, shares)
    ensures var left, slack := balances[|shares|], Slack(accrued, RealSum(shares), |shares|);
            left == 0 || (if shares == [] then left as real <= slack else (left as real) < slack)
  {
    var k := |shares|;
    if k > 0 {
      assert TakenInTurn(accrued, balances[..k], shares[..k - 1]) by {
        assert forall i | 0 <= i < k - 1 :: balances[i + 1] == balances[i] - Taken(accrued, balances[i], shares[i]);
      }
      LeftAfter(accrued, balances[..k], shares[..k - 1]);
      TakenBound(accrued, balances[k - 1], shares[k - 1], RealSum(shares[..k - 1]), k - 1);
    }
  }

  lemma {:induction false} OneMoreTaken(accrued: int, balances: seq<int>, shares: seq<real>, balance: int, share: real)
    requires TakenInTurn(accrued, balances, shares) && 0 <= balance <= accrued
    requires balance == balances[|shares|] - Taken(accrued, balances[|shares|], share)
    ensures TakenInTurn(accrued, balances + [balance], shares + [share])
  {
  }

  lemma {:induction false} LastRefundTakes(rows: seq<Row>, reqs: seq<Request>, order: string, c: Component)
    requires Sound(rows) && AccrualOf(rows, order).Some? && FreshRefunds(rows, reqs, order) && reqs != []
    ensures var before := Balance(RunRefunds(rows, reqs[..|reqs| - 1]), order, c);
            var shares := Shares(reqs, order);
            Balance(RunRefunds(rows, reqs), order, c)
            == before - Taken(Accrued(rows, order, c), before, shares[|reqs| - 1])
  {
    var init, last := reqs[..|reqs| - 1], reqs[|reqs| - 1];
    assert last in reqs && forall q | q in init :: q in reqs;
    RunRefundsKeeps(rows, init, order);
    ReverseTakes(RunRefunds(rows, init), last.refund, last.scoped, last.period, order, c);
  }

  lemma {:induction false} BalancesOf(rows: seq<Row>, reqs: seq<Request>, order: string, c: Component)
    returns (balances: seq<int>)
    requires Sound(rows) && AccrualOf(rows, order).Some? && FreshRefunds(rows, reqs, order)
    ensures TakenInTurn(Accrued(rows, order, c), balances, Shares(reqs, order))
    ensures balances[|reqs|] == Balance(RunRefunds(rows, reqs), order, c)
  {
    RunRefundsKeeps(rows, reqs, order);
    assert 0 <= Balance(RunRefunds(rows, reqs), order, c) <= Accrued(RunRefunds(rows, reqs), order, c);
    if reqs == [] {
      balances := [Balance(rows, order, c)];
    } else {
      var init, last := reqs[..|reqs| - 1], reqs[|reqs| - 1];
      assert last in reqs && forall q | q in init :: q in reqs;
      var before := BalancesOf(rows, init, order, c);
      var left, shares := Balance(RunRefunds(rows, reqs), order, c), Shares(reqs, order);
      LastRefundTakes(rows, reqs, order, c);
      OneMoreTaken(Accrued(rows, order, c), before, Shares(init, order), left, shares[|init|]);
      balances := before + [left];
    }
  }

  /** k distinct refunds that together cover an order's gross leave less than k/2 units
      unreversed in every column: nothing at all when k is 1 or 2. */
  lemma {:induction false} CoveringRefunds(rows: seq<Row>, reqs: seq<Request>, order: string, c: Component)
    requires Sound(rows) && AccrualOf(rows, order).Some? && FreshRefunds(rows, reqs, order)
    requires RealSum(Shares(reqs, order)) >= 1.0
    ensures 0 <= Balance(RunRefunds(rows, reqs), order, c)
    ensures 2 * Balance(RunRefunds(rows, reqs), order, c) < |reqs|
  {
    var balances := BalancesOf(rows, reqs, order, c);
    LeftAfter(Accrued(rows, order, c), balances, Shares(reqs, order));
    assert 0 <= balances[|reqs|] <= Accrued(rows, order, c);
  }

  // ---- shares in terms of amounts ---------------------------------------------

  lemma {:induction false} ShareOfAmount(refund: Refund, scoped: seq<Scoped>, order: string)
    requires GrossOf(scoped, order) > 0
    ensures refund.orderId.Some? ==>
              Share(refund, scoped, order) == refund.amount as real / GrossOf(scoped, order) as real
    ensures refund.orderId.None? && OrderGross(scoped) > 0 ==>
              Share(refund, scoped, order) == refund.amount as real / OrderGross(scoped) as real
  {
    RefundShareOverGross(refund, GrossOf(scoped, order), OrderGross(scoped));
  }

  lemma {:induction false} RefundShareOverGross(refund: Refund, gross: int, orderGross: int)
    requires gross > 0
    ensures refund.orderId.Some? ==> RefundShare(refund, gross, orderGross) == refund.amount as real
    ensures refund.orderId.None? && orderGross > 0 ==>
              RefundShare(refund, gross, orderGross) / gross as real == refund.amount as real / orderGross as real
  {
    if refund.orderId.None? && orderGross > 0 {
      CancelFactor(RefundShare(refund, gross, orderGross), refund.amount as real, gross as real, orderGross as real);
    }
  }

  lemma {:induction false} CancelFactor(share: real, a: real, g: real, o: real)
    requires g > 0.0 && o > 0.0 && share == a * g / o
    ensures share / g == a / o
  {
    var q := a / o;
    assert q * o == a;
    assert a * g == q * g * o;
    assert share == q * g;
  }

  function RefundAmount(): Request -> int
  {
    (q: Request) => q.refund.amount
  }

  /** Refunds all measured against one denominator cover a share equal to their total. */
  lemma {:induction false} SharesAddUp(reqs: seq<Request>, order: string, denominator: int)
    requires denominator > 0
    requires forall q | q in reqs :: GrossOf(q.scoped, order) > 0
               && Share(q.refund, q.scoped, order) == q.refund.amount as real / denominator as real
    ensures RealSum(Shares(reqs, order)) == Sum(reqs, RefundAmount()) as real / denominator as real
  {
    if reqs != [] {
      assert reqs[|reqs| - 1] in reqs;
      assert forall q | q in reqs[..|reqs| - 1] :: q in reqs;
      SharesAddUp(reqs[..|reqs| - 1], order, denominator);
      AddQuotients(Sum(reqs[..|reqs| - 1], RefundAmount()) as real, reqs[|reqs| - 1].refund.amount as real,
                   denominator as real);
    }
  }

  lemma {:induction false} AddQuotients(a: real, b: real, d: real)
    requires d > 0.0
    ensures a / d + b / d == (a + b) / d
  {
  }

  /** Refunds scoped to one seller order whose amounts add up to its gross. */
  lemma {:induction false} RefundsCoveringGross(rows: seq<Row>, reqs: seq<Request>, scoped: seq<Scoped>,
                                                order: string, c: Component)
    requires Sound(rows) && AccrualOf(rows, order).Some? && FreshRefunds(rows, reqs, order)
    requires forall q | q in reqs :: q.refund.orderId == Some(order) && q.scoped == scoped
    requires reqs != [] && Sum(reqs, RefundAmount()) >= GrossOf(scoped, order)
    ensures 2 * Balance(RunRefunds(rows, reqs), order, c) < |reqs|
  {
    ScopedSharesCover(reqs, scoped, order);
    CoveringRefunds(rows, reqs, order, c);
  }

  lemma {:induction false} ScopedSharesCover(reqs: seq<Request>, scoped: seq<Scoped>, order: string)
    requires forall q | q in reqs :: q.refund.orderId.Some? && q.scoped == scoped
    requires GrossOf(scoped, order) > 0
    ensures RealSum(Shares(reqs, order)) >= 1.0 <==> Sum(reqs, RefundAmount()) >= GrossOf(scoped, order)
  {
    forall q | q in reqs
      ensures Share(q.refund, q.scoped, order) == q.refund.amount as real / GrossOf(scoped, order) as real
    {
      ShareOfAmount(q.refund, q.scoped, order);
    }
    SharesAddUp(reqs, order, GrossOf(scoped, order));
    QuotientAtLeastOne(Sum(reqs, RefundAmount()) as real, GrossOf(scoped, order) as real);
  }

  lemma {:induction false} QuotientAtLeastOne(a: real, d: real)
    requires d > 0.0
    ensures a / d >= 1.0 <==> a >= d
  {
  }

  /** Refunds of a whole order whose amounts add up to its total: they cover every seller order
      in scope. */
  lemma {:induction false} OrderRefundsCoveringGross(rows: seq<Row>, reqs: seq<Request>, scoped: seq<Scoped>,
                                                     order: string, c: Component)
    requires Sound(rows) && AccrualOf(rows, order).Some? && FreshRefunds(rows, reqs, order)
    requires forall q | q in reqs :: q.refund.orderId.None? && q.scoped == scoped
    requires reqs != [] && 0 < OrderGross(scoped) <= Sum(reqs, RefundAmount())
    ensures 2 * Balance(RunRefunds(rows, reqs), order, c) < |reqs|
  {
    OrderSharesCover(reqs, scoped, order);
    CoveringRefunds(rows, reqs, order, c);
  }

  lemma {:induction false} OrderSharesCover(reqs: seq<Request>, scoped: seq<Scoped>, order: string)
    requires forall q | q in reqs :: q.refund.orderId.None? && q.scoped == scoped
    requires GrossOf(scoped, order) > 0 && OrderGross(scoped) > 0
    ensures RealSum(Shares(reqs, order)) >= 1.0 <==> Sum(reqs, RefundAmount()) >= OrderGross(scoped)
  {
    forall q | q in reqs
      ensures Share(q.refund, q.scoped, order) == q.refund.amount as real / OrderGross(scoped) as real
    {
      ShareOfAmount(q.refund, q.scoped, order);
    }
    SharesAddUp(reqs, order, OrderGross(scoped));
    QuotientAtLeastOne(Sum(reqs, RefundAmount()) as real, OrderGross(scoped) as real);
  }
}
