/** What every run of accruals and reversals keeps. */
module TcsLedgerProofs {
  import opened Options
  import opened Sums
  import opened TcsLedger

  // ---- reading the accrual ----------------------------------------------------

  lemma {:induction false} AccrualOfFinds(rows: seq<Row>, order: string)
    ensures AccrualOf(rows, order).Some? ==>
              AccrualOf(rows, order).value in rows && AccrualOf(rows, order).value.kind.Accrual?
              && AccrualOf(rows, order).value.orderId == order
    ensures AccrualOf(rows, order).None? ==>
              forall r | r in rows :: !(r.kind.Accrual? && r.orderId == order)
  {
    if rows != [] {
      AccrualOfFinds(rows[..|rows| - 1], order);
      assert rows == rows[..|rows| - 1] + [rows[|rows| - 1]];
    }
  }

  lemma {:induction false} AccrualOfSnoc(rows: seq<Row>, r: Row, order: string)
    ensures AccrualOf(rows + [r], order) ==
            if r.kind.Accrual? && r.orderId == order then Some(r) else AccrualOf(rows, order)
  {
    assert (rows + [r])[..|rows|] == rows;
  }

  /** While a refund has no row on an order, accrued plus prior reversals is the balance. */
  lemma {:induction false} BalanceIsAccruedPlusPrior(rows: seq<Row>, order: string, refund: string, c: Component)
    requires UniqueKeys(rows)
    requires !HasReversal(rows, order, refund)
    ensures Balance(rows, order, c) == Accrued(rows, order, c) + Sum(rows, Prior(order, refund, c))
  {
    if rows != [] {
      var init, last := rows[..|rows| - 1], rows[|rows| - 1];
      assert last in rows;
      assert forall r | r in init :: r in rows;
      BalanceIsAccruedPlusPrior(init, order, refund, c);
      if last.kind.Accrual? && last.orderId == order {
        AccrualOfFinds(init, order);
      }
    }
  }

  // ---- one insertion ----------------------------------------------------------

  ghost predicate Present(rows: seq<Row>, r: Row)
  {
    exists a | a in rows :: SameKey(a, r)
  }

  /** A reversal that may be inserted: signed, and covered by the balance unless the
      refund already has its row. */
  ghost predicate Fits(rows: seq<Row>, r: Row)
  {
    && r.kind.Reversal?
    && Signed(r)
    && (Present(rows, r) || forall c: Component :: Balance(rows, r.orderId, c) + r.amounts.At(c) >= 0)
  }

  lemma {:induction false} InsertSkipSound(rows: seq<Row>, r: Row)
    requires Sound(rows)
    requires if r.kind.Accrual? then Signed(r) else Fits(rows, r)
    ensures Sound(InsertSkip(rows, r))
  {
    var next := InsertSkip(rows, r);
    if next != rows {
      forall order: string, c: Component
        ensures 0 <= Balance(next, order, c) <= Accrued(next, order, c)
      {
        SumSnoc(rows, r, On(order, c));
        AccrualOfSnoc(rows, r, order);
        AccrualOfFinds(rows, order);
        assert 0 <= Balance(rows, order, c) <= Accrued(rows, order, c);
      }
    }
  }

  lemma {:induction false} FitsStays(rows: seq<Row>, r: Row, later: Row)
    requires Fits(rows, later) && r.kind == later.kind
    ensures Fits(InsertSkip(rows, r), later)
  {
    var next := InsertSkip(rows, r);
    if next != rows {
      assert forall a | a in rows :: a in next;
      assert r in next;
      if r.orderId != later.orderId {
        forall c: Component ensures Balance(next, later.orderId, c) == Balance(rows, later.orderId, c) {
          SumSnoc(rows, r, On(later.orderId, c));
        }
      }
    }
  }

  lemma {:induction false} InsertAllSound(rows: seq<Row>, batch: seq<Row>, kind: Kind)
    requires Sound(rows)
    requires forall r | r in batch :: r.kind == kind && Fits(rows, r)
    ensures Sound(InsertAll(rows, batch))
    ensures forall r: Row | r.kind == kind && Fits(rows, r) :: Fits(InsertAll(rows, batch), r)
  {
    if batch != [] {
      var init, last := batch[..|batch| - 1], batch[|batch| - 1];
      assert last in batch;
      InsertAllSound(rows, init, kind);
      InsertSkipSound(InsertAll(rows, init), last);
      forall r: Row | r.kind == kind && Fits(rows, r) ensures Fits(InsertAll(rows, batch), r) {
        FitsStays(InsertAll(rows, init), last, r);
      }
    }
  }

  // ---- the rows reverse proposes ----------------------------------------------

  ghost predicate HasReversal(rows: seq<Row>, order: string, refund: string)
  {
    exists r | r in rows :: r.orderId == order && r.kind == Reversal(refund)
  }

  lemma {:induction false} MagnitudeWithinBalance(rows: seq<Row>, accr: Row, refund: Refund, proportion: real,
                                                  c: Component)
    requires UniqueKeys(rows) && AccrualOf(rows, accr.orderId) == Some(accr)
    requires accr.amounts.At(c) >= 0 && Balance(rows, accr.orderId, c) >= 0 && proportion > 0.0
    ensures Magnitude(rows, accr, refund, proportion, c) >= 0
    ensures !HasReversal(rows, accr.orderId, refund.id) ==>
              Magnitude(rows, accr, refund, proportion, c)
              == Min(Slice(accr.amounts.At(c), proportion), Balance(rows, accr.orderId, c))
  {
    if !HasReversal(rows, accr.orderId, refund.id) {
      BalanceIsAccruedPlusPrior(rows, accr.orderId, refund.id, c);
    }
    ClampIsMin(Slice(accr.amounts.At(c), proportion), accr.amounts.At(c), Sum(rows, Prior(accr.orderId, refund.id, c)));
  }

  lemma {:induction false} ClampIsMin(slice: int, accrued: int, prior: int)
    requires slice >= 0
    ensures ClampMag(slice, accrued, prior) >= 0
    ensures accrued + prior >= 0 ==> ClampMag(slice, accrued, prior) == Min(slice, accrued + prior)
  {
  }

  function Min(a: int, b: int): int { if a <= b then a else b }

  lemma {:induction false} ReversalRowFits(rows: seq<Row>, refund: Refund, scoped: seq<Scoped>, id: string,
                                           period: string)
    requires Sound(rows)
    ensures var row := ReversalRow(rows, refund, scoped, id, period);
            row.Some? ==> row.value.kind == Reversal(refund.id) && row.value.orderId == id && Fits(rows, row.value)
  {
    var row := ReversalRow(rows, refund, scoped, id, period);
    if row.Some? {
      var accr := AccrualOf(rows, id).value;
      AccrualOfFinds(rows, id);
      var share := Share(refund, scoped, id);
      var proportion := if share > 1.0 then 1.0 else share;
      forall c: Component
        ensures row.value.amounts.At(c) == -Magnitude(rows, accr, refund, proportion, c)
        ensures row.value.amounts.At(c) <= 0
        ensures Present(rows, row.value) || Balance(rows, id, c) + row.value.amounts.At(c) >= 0
      {
        assert Signed(accr);
        assert 0 <= Balance(rows, id, c);
        MagnitudeWithinBalance(rows, accr, refund, proportion, c);
      }
    }
  }

  lemma {:induction false} CollectedAreCandidates(scoped: seq<Scoped>, candidate: string -> Option<Row>)
    ensures forall r | r in Collect(scoped, candidate) :: exists s | s in scoped :: candidate(s.id) == Some(r)
  {
    if scoped != [] {
      CollectedAreCandidates(scoped[..|scoped| - 1], candidate);
      assert scoped[|scoped| - 1] in scoped;
    }
  }

  lemma {:induction false} ReversalRowsFit(rows: seq<Row>, refund: Refund, scoped: seq<Scoped>, period: string)
    requires Sound(rows)
    ensures forall r | r in ReversalRows(rows, refund, scoped, period) ::
              r.kind == Reversal(refund.id) && Fits(rows, r)
  {
    var candidate := Candidate(rows, refund, scoped, period);
    CollectedAreCandidates(scoped, candidate);
    forall r | r in Collect(scoped, candidate) ensures r.kind == Reversal(refund.id) && Fits(rows, r) {
      var s :| s in scoped && candidate(s.id) == Some(r);
      ReversalRowFits(rows, refund, scoped, s.id, period);
    }
  }

  // ---- the accrual against the statutory rate ----------------------------------

  /** The split never mixes the two regimes and stays within a paisa of one percent. */
  lemma {:induction false} SplitIsOnePercent(base: int, taxKind: TaxKind)
    ensures var a := Split(base, taxKind);
            var onePercent := base as real / 10000.0;
            && a.net == base
            && (taxKind.IntraState? ==> a.cgst == a.sgst && a.igst == 0
                                        && onePercent - 1.0 <= (a.cgst + a.sgst) as real <= onePercent + 1.0)
            && (taxKind.InterState? ==> a.cgst == 0 && a.sgst == 0
                                        && onePercent - 0.5 <= a.igst as real <= onePercent + 0.5)
  {
  }

  // ---- every run --------------------------------------------------------------

  lemma {:induction false} ReverseSound(rows: seq<Row>, refund: Refund, scoped: seq<Scoped>, period: string)
    requires Sound(rows)
    ensures Sound(Reverse(rows, refund, scoped, period))
  {
    ReversalRowsFit(rows, refund, scoped, period);
    InsertAllSound(rows, ReversalRows(rows, refund, scoped, period), Reversal(refund.id));
  }

  lemma {:induction false} AccrueSound(rows: seq<Row>, found: Option<SellerOrder>, items: seq<OrderItem>,
                                       period: string)
    requires Sound(rows)
    ensures Sound(Accrue(rows, found, items, period))
  {
    if found.Some? && AccrualRow(found.value, items, period).Some? {
      var row := AccrualRow(found.value, items, period).value;
      assert row.amounts.net > 0;
      assert Signed(row);
      InsertSkipSound(rows, row);
    }
  }

  /** The first accrual of a seller order stays; any later one writes nothing, whatever its
      items and month. */
  lemma {:induction false} AccrueOnce(rows: seq<Row>, so: SellerOrder, items: seq<OrderItem>, period: string)
    ensures var next := Accrue(rows, Some(so), items, period);
            && (AccrualOf(rows, so.id).Some? ==> next == rows)
            && (AccrualOf(rows, so.id).None? ==> AccrualOf(next, so.id) == AccrualRow(so, items, period))
  {
    AccrualOfFinds(rows, so.id);
    if AccrualRow(so, items, period).Some? { AccrualOfSnoc(rows, AccrualRow(so, items, period).value, so.id); }
  }

  datatype Op =
    | AccrueOp(found: Option<SellerOrder>, items: seq<OrderItem>, period: string)
    | ReverseOp(refund: Refund, scoped: seq<Scoped>, period: string)

  function Apply(rows: seq<Row>, op: Op): seq<Row>
  {
    match op
    case AccrueOp(found, items, period) => Accrue(rows, found, items, period)
    case ReverseOp(refund, scoped, period) => Reverse(rows, refund, scoped, period)
  }

  function Run(rows: seq<Row>, ops: seq<Op>): seq<Row>
  {
    if ops == [] then rows else Apply(Run(rows, ops[..|ops| - 1]), ops[|ops| - 1])
  }

  /** Any sequence of accruals and refunds, retried and in any order, keeps every
      balance between zero and the accrual. */
  lemma {:induction false} RunSound(ops: seq<Op>)
    ensures Sound(Run([], ops))
  {
    if ops != [] {
      RunSound(ops[..|ops| - 1]);
      var rows := Run([], ops[..|ops| - 1]);
      match ops[|ops| - 1]
      case AccrueOp(found, items, period) => AccrueSound(rows, found, items, period);
      case ReverseOp(refund, scoped, period) => ReverseSound(rows, refund, scoped, period);
    }
  }
}
