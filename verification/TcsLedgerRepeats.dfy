/** What one call of reverse does to every order of any sound ledger, and so what a second call
    under the same refund id does, with whatever scope and amount. */
module TcsLedgerRepeats {
  import opened Options
  import opened Sums
  import opened TcsLedger
  import opened TcsLedgerProofs
  import opened TcsLedgerCoverage

  lemma {:induction false} CollectedInScope(scoped: seq<Scoped>, candidate: string -> Option<Row>)
    requires forall id: string :: candidate(id).Some? ==> candidate(id).value.orderId == id
    ensures forall r | r in Collect(scoped, candidate) :: exists s | s in scoped :: s.id == r.orderId
  {
    if scoped != [] {
      CollectedInScope(scoped[..|scoped| - 1], candidate);
      assert scoped == scoped[..|scoped| - 1] + [scoped[|scoped| - 1]];
    }
  }

  /** Rows already there are kept as they are. */
  lemma {:induction false} InsertAllExtends(rows: seq<Row>, batch: seq<Row>)
    ensures rows <= InsertAll(rows, batch)
  {
    if batch != [] { InsertAllExtends(rows, batch[..|batch| - 1]); }
  }

  /** A batch that brings an order no row under a new key leaves its balance. */
  lemma {:induction false} InsertNothingNew(rows: seq<Row>, batch: seq<Row>, order: string, c: Component)
    requires forall r | r in batch && r.orderId == order :: Present(rows, r)
    ensures Balance(InsertAll(rows, batch), order, c) == Balance(rows, order, c)
  {
    if batch != [] {
      var init, last := batch[..|batch| - 1], batch[|batch| - 1];
      assert batch == init + [last];
      InsertNothingNew(rows, init, order, c);
      InsertAllExtends(rows, init);
      var mid := InsertAll(rows, init);
      SumSnoc(mid, last, On(order, c));
      if last.orderId == order {
        var a :| a in rows && SameKey(a, last);
        assert a in mid;
      }
    }
  }

  /** Whether a call can take anything from an order: it is in scope with a gross, it has an
      accrual, and the refund has no row on it yet. */
  ghost predicate Open(rows: seq<Row>, refund: Refund, scoped: seq<Scoped>, order: string)
  {
    Covers(scoped, order) && AccrualOf(rows, order).Some? && !HasReversal(rows, order, refund.id)
  }

  /** One call of reverse, on every order of any sound ledger: the rows there stay, and a balance
      falls by the clamped share where the order is open to the refund, and nowhere else. */
  lemma {:induction false} ReverseEffect(rows: seq<Row>, refund: Refund, scoped: seq<Scoped>, period: string,
                                         order: string, c: Component)
    requires Sound(rows)
    ensures var next := Reverse(rows, refund, scoped, period);
            && rows <= next
            && Balance(next, order, c) == Balance(rows, order, c)
               - if Open(rows, refund, scoped, order)
                 then Taken(Accrued(rows, order, c), Balance(rows, order, c), Share(refund, scoped, order)) else 0
  {
    InsertAllExtends(rows, ReversalRows(rows, refund, scoped, period));
    if Open(rows, refund, scoped, order) {
      ReverseTakes(rows, refund, scoped, period, order, c);
    } else {
      ClosedStays(rows, refund, scoped, period, order, c);
    }
  }

  lemma {:induction false} ClosedStays(rows: seq<Row>, refund: Refund, scoped: seq<Scoped>, period: string,
                                       order: string, c: Component)
    requires Sound(rows) && !Open(rows, refund, scoped, order)
    ensures Balance(Reverse(rows, refund, scoped, period), order, c) == Balance(rows, order, c)
  {
    var candidate, batch := Candidate(rows, refund, scoped, period), ReversalRows(rows, refund, scoped, period);
    forall id: string ensures candidate(id).Some? ==> candidate(id).value.orderId == id {
      ReversalRowFits(rows, refund, scoped, id, period);
    }
    CollectedOf(scoped, candidate, order);
    CollectedInScope(scoped, candidate);
    ReversalRowsFit(rows, refund, scoped, period);
    forall r | r in batch && r.orderId == order ensures Present(rows, r) {
      assert HasReversal(rows, order, refund.id);
    }
    InsertNothingNew(rows, batch, order, c);
  }

  /** A second call under the same refund id, with another scope or amount: the first call's rows
      stay, an order it gave a row keeps its balance, and any other in the new scope loses the
      share of this call, so that no order is reversed twice under one refund. */
  lemma {:induction false} RescopedRetry(rows: seq<Row>, first: Refund, scoped: seq<Scoped>, again: Refund,
                                         rescoped: seq<Scoped>, period: string, later: string,
                                         order: string, c: Component)
    requires Sound(rows) && first.id == again.id
    ensures var once := Reverse(rows, first, scoped, period);
            var twice := Reverse(once, again, rescoped, later);
            && Sound(twice) && once <= twice
            && (HasReversal(once, order, first.id) ==> Balance(twice, order, c) == Balance(once, order, c))
            && (!HasReversal(once, order, first.id) ==>
                  && Balance(once, order, c) == Balance(rows, order, c)
                  && Balance(twice, order, c) == Balance(Reverse(rows, again, rescoped, later), order, c))
  {
    var batch := ReversalRows(rows, first, scoped, period);
    var once := Reverse(rows, first, scoped, period);
    ReverseSound(rows, first, scoped, period);
    ReverseSound(once, again, rescoped, later);
    ReverseEffect(once, again, rescoped, later, order, c);
    if !HasReversal(once, order, first.id) {
      ReversalRowsFit(rows, first, scoped, period);
      InsertAllKeeps(rows, batch, first.id, order, first.id);
      NoRowNothingTaken(rows, first, scoped, period, order, c);
      ReverseEffect(rows, again, rescoped, later, order, c);
      InsertAllExtends(rows, batch);
    }
  }

  /** A call that leaves an order without a row takes nothing from it. */
  lemma {:induction false} NoRowNothingTaken(rows: seq<Row>, refund: Refund, scoped: seq<Scoped>, period: string,
                                             order: string, c: Component)
    requires Sound(rows) && !HasReversal(Reverse(rows, refund, scoped, period), order, refund.id)
    ensures Balance(Reverse(rows, refund, scoped, period), order, c) == Balance(rows, order, c)
  {
    var batch := ReversalRows(rows, refund, scoped, period);
    ReversalRowsFit(rows, refund, scoped, period);
    InsertAllHolds(rows, batch);
    forall r | r in batch ensures HasReversal(Reverse(rows, refund, scoped, period), r.orderId, refund.id) {
      assert Present(Reverse(rows, refund, scoped, period), r);
    }
    InsertNothingNew(rows, batch, order, c);
  }
}
