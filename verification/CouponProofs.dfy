/** The shares of a discount: they add up, they stay near proportion, and what the floor at
    zero adds back to the charged base is bounded. */
module CouponProofs {
  import opened Rounding
  import opened Sums
  import opened Coupon

  // ---- exact proportion -----------------------------------------------------------

  lemma {:induction false} ProAdds(a: int, x: int, y: int, whole: int)
    ensures Pro(a, x + y, whole) == Pro(a, x, whole) + Pro(a, y, whole)
  {
    if whole != 0 {
      var w := whole as real;
      assert (x + y) as real / w == x as real / w + y as real / w;
    }
  }

  lemma {:induction false} ProOfWhole(a: int, whole: int)
    requires whole != 0
    ensures Pro(a, whole, whole) == a as real
    ensures Pro(a, 0, whole) == 0.0
  {
    assert whole as real / whole as real == 1.0;
  }

  /** Taking at most (at least) the whole takes at most (at least) each part. */
  lemma {:induction false} ProAgainstPart(a: int, part: int, whole: int)
    requires 0 <= part && 0 < whole
    ensures a <= whole ==> Pro(a, part, whole) <= part as real
    ensures a >= whole ==> Pro(a, part, whole) >= part as real
  {
    var q := part as real / whole as real;
    assert q * whole as real == part as real;
    assert q >= 0.0;
    assert a <= whole ==> a as real * q <= whole as real * q;
    assert a >= whole ==> a as real * q >= whole as real * q;
  }

  // ---- stores ---------------------------------------------------------------------

  function SubtotalOf(lines: seq<Line>): string -> int
  {
    PerGroup(lines, StoreOf(), Total())
  }

  lemma {:induction false} StoreSubtotalsAddUp(lines: seq<Line>)
    ensures Sum(Stores(lines), SubtotalOf(lines)) == Subtotal(lines)
  {
    forall l | l in lines ensures StoreOf()(l) in Stores(lines) {
    }
    GroupsAddUp(lines, Stores(lines), StoreOf(), Total());
  }

  lemma {:induction false} StoreSubtotalBounds(lines: seq<Line>, store: string)
    ensures 0 <= StoreSubtotal(lines, store)
  {
    SumAtMost(lines, Point0(), Only(StoreOf(), store, Total()));
    SumZero(lines, Point0());
  }

  function Point0<T>(): T -> int { (x: T) => 0 }

  /** Rounded portions of exact parts drift by at most half a unit each. */
  lemma {:induction false} PortionsDrift(keys: seq<string>, portion: string -> int, exact: string -> real,
                                         total: int, k: nat)
    requires k < |keys|
    requires forall key | key in keys :: portion(key) == HalfUp(exact(key))
    ensures var drift := Sum(Shares(keys, portion, total, k), Identity()) as real - RealTotal(keys[..k], exact);
            -(k as real) / 2.0 <= drift <= k as real / 2.0
  {
    if k > 0 {
      PortionsDrift(keys, portion, exact, total, k - 1);
      RealTotalPrefix(keys, k - 1, exact);
      SumSnoc(Shares(keys, portion, total, k - 1), portion(keys[k - 1]), Identity());
    }
  }

  /** Shares add up to the total exactly. */
  lemma {:induction false} SharesTakeTheTotal(keys: seq<string>, portion: string -> int, total: int)
    requires keys != []
    ensures Sum(Shares(keys, portion, total, |keys|), Identity()) == total
  {
    var before := Shares(keys, portion, total, |keys| - 1);
    SumSnoc(before, total - Sum(before, Identity()), Identity());
  }

  lemma {:induction false} ShareIndex(keys: seq<string>, portion: string -> int, total: int, k: nat, i: nat)
    requires i < k <= |keys|
    ensures Shares(keys, portion, total, k)[i] ==
            if i + 1 == |keys| then total - Sum(Shares(keys, portion, total, i), Identity()) else portion(keys[i])
  {
    if i + 1 < k {
      ShareIndex(keys, portion, total, k - 1, i);
    }
  }

  function ExactShare(lines: seq<Line>, discount: int): string -> real
  {
    (store: string) => Pro(discount, StoreSubtotal(lines, store), Subtotal(lines))
  }

  lemma {:induction false} ExactSharesAddUp(lines: seq<Line>, discount: int, k: nat)
    requires k <= |Stores(lines)| && Subtotal(lines) > 0
    ensures RealTotal(Stores(lines)[..k], ExactShare(lines, discount))
            == Pro(discount, Sum(Stores(lines)[..k], SubtotalOf(lines)), Subtotal(lines))
  {
    if k == 0 {
      ProOfWhole(discount, Subtotal(lines));
    } else {
      ExactSharesAddUp(lines, discount, k - 1);
      RealTotalPrefix(Stores(lines), k - 1, ExactShare(lines, discount));
      SumPrefix(Stores(lines), k - 1, SubtotalOf(lines));
      ProAdds(discount, Sum(Stores(lines)[..k - 1], SubtotalOf(lines)),
              StoreSubtotal(lines, Stores(lines)[k - 1]), Subtotal(lines));
    }
  }

  lemma {:induction false} ShareOfIndex(stores: seq<string>, shares: seq<int>, i: nat)
    requires |stores| == |shares| && i < |stores| && Distinct(stores)
    ensures ShareOf(stores, shares, stores[i]) == shares[i]
  {
    if i + 1 < |stores| {
      ShareOfIndex(stores[..|stores| - 1], shares[..|stores| - 1], i);
    }
  }

  /** A store that is not last gets its proportional share rounded to the paisa; the last
      one is off by at most half a paisa for each of the others. */
  lemma {:induction false} ShareNearProportion(lines: seq<Line>, discount: int, i: nat)
    requires i < |Stores(lines)| && Subtotal(lines) > 0
    ensures var store := Stores(lines)[i];
            var n := |Stores(lines)|;
            var drift := Allotment(lines, discount)(store) as real
                         - Pro(discount, StoreSubtotal(lines, store), Subtotal(lines));
            && Allotment(lines, discount)(store) == AllShares(lines, discount)[i]
            && (i + 1 < n ==> Allotment(lines, discount)(store)
                              == HalfUp(Pro(discount, StoreSubtotal(lines, store), Subtotal(lines))))
            && (i + 1 < n ==> -0.5 <= drift <= 0.5)
            && (i + 1 == n ==> -((n - 1) as real) / 2.0 <= drift <= (n - 1) as real / 2.0)
  {
    var stores, n := Stores(lines), |Stores(lines)|;
    var portion, exact := RoundedShare(lines, discount), ExactShare(lines, discount);
    ShareOfIndex(stores, AllShares(lines, discount), i);
    ShareIndex(stores, portion, discount, n, i);
    if i + 1 == n {
      PortionsDrift(stores, portion, exact, discount, i);
      ExactSharesTotal(lines, discount);
      RealTotalPrefix(stores, i, exact);
      assert stores[..n] == stores;
    }
  }

  lemma {:induction false} ExactSharesTotal(lines: seq<Line>, discount: int)
    requires Subtotal(lines) > 0
    ensures RealTotal(Stores(lines), ExactShare(lines, discount)) == discount as real
  {
    ExactSharesAddUp(lines, discount, |Stores(lines)|);
    assert Stores(lines)[..|Stores(lines)|] == Stores(lines);
    StoreSubtotalsAddUp(lines);
    ProOfWhole(discount, Subtotal(lines));
  }

  function Over(lines: seq<Line>, discount: int): string -> int
  {
    (store: string) =>
      var over := Allotment(lines, discount)(store) - StoreSubtotal(lines, store); if over > 0 then over else 0
  }

  /** Only the last store can be allotted more than it sells, and by at most (n - 1)/2. */
  lemma {:induction false} OverAllotment(lines: seq<Line>, discount: int)
    requires 0 <= discount <= Subtotal(lines) && Subtotal(lines) > 0
    ensures 0 <= 2 * Sum(Stores(lines), Over(lines, discount)) <= |Stores(lines)| - 1
  {
    var stores, n, whole := Stores(lines), |Stores(lines)|, Subtotal(lines);
    assert lines != [];
    assert StoreOf()(lines[0]) in stores;
    forall i | 0 <= i < n
      ensures i + 1 < n ==> Over(lines, discount)(stores[i]) == 0
      ensures i + 1 == n ==> 2 * Over(lines, discount)(stores[i]) <= n - 1
    {
      ShareNearProportion(lines, discount, i);
      StoreSubtotalBounds(lines, stores[i]);
      ProAgainstPart(discount, StoreSubtotal(lines, stores[i]), whole);
      HalfUpWithin(Pro(discount, StoreSubtotal(lines, stores[i]), whole), StoreSubtotal(lines, stores[i]));
    }
    SumZero(stores[..n - 1], Over(lines, discount));
    SumPrefix(stores, n - 1, Over(lines, discount));
    assert stores[..n] == stores;
  }

  lemma {:induction false} ProTimes(a: int, weight: int, whole: int)
    requires whole != 0
    ensures Pro(a, weight, whole) * whole as real == (a * weight) as real
  {
    var q, w := weight as real / whole as real, whole as real;
    assert q * w == weight as real;
    assert (a as real * q) * w == a as real * (q * w);
  }

  lemma {:induction false} DriftTimes(share: int, exact: real, product: int, whole: int, k: nat)
    requires whole > 0 && exact * whole as real == product as real
    requires -(k as real) / 2.0 <= share as real - exact <= k as real / 2.0
    ensures -(k * whole) <= 2 * (share * whole - product) <= k * whole
  {
    var w, d := whole as real, share as real - exact;
    ScaleMonotone(d, k as real / 2.0, w);
    ScaleMonotone(-(k as real) / 2.0, d, w);
    assert d * w == share as real * w - exact * w;
    assert k as real / 2.0 * w == (k * whole) as real / 2.0;
  }

  /** The shares in whole numbers: subtotal times share is discount times store subtotal, to within
      half a subtotal, or half of one for each other store when it is the last. */
  lemma {:induction false} ShareOutright(lines: seq<Line>, discount: int, i: nat)
    requires i < |Stores(lines)| && Subtotal(lines) > 0
    ensures var store, n, whole := Stores(lines)[i], |Stores(lines)|, Subtotal(lines);
            var off := Allotment(lines, discount)(store) * whole - discount * StoreSubtotal(lines, store);
            && (i + 1 < n ==> -whole <= 2 * off <= whole)
            && (i + 1 == n ==> -((n - 1) * whole) <= 2 * off <= (n - 1) * whole)
  {
    var store, n, whole := Stores(lines)[i], |Stores(lines)|, Subtotal(lines);
    ShareNearProportion(lines, discount, i);
    ProTimes(discount, StoreSubtotal(lines, store), whole);
    DriftTimes(Allotment(lines, discount)(store), Pro(discount, StoreSubtotal(lines, store), whole),
               discount * StoreSubtotal(lines, store), whole, if i + 1 < n then 1 else n - 1);
  }

  // ---- lines ----------------------------------------------------------------------

  function Weight(): PricedLine -> int { (p: PricedLine) => p.line.lineTotal }

  function One<T>(): T -> int { (x: T) => 1 }

  /** What the floor at zero gives back: the part of a line discount above the line. */
  function Excess(): PricedLine -> int
  {
    (p: PricedLine) => if p.discount > p.line.lineTotal then p.discount - p.line.lineTotal else 0
  }

  function In(priced: seq<PricedLine>, store: string, f: PricedLine -> int): int
  {
    GroupSum(priced, PricedStore(), store, f)
  }

  ghost predicate Open(lines: seq<Line>, store: string, i: nat)
  {
    exists j | i <= j < |lines| :: lines[j].store == store
  }

  ghost predicate Begun(lines: seq<Line>, store: string, i: nat)
  {
    exists j | 0 <= j < i && j < |lines| :: lines[j].store == store
  }

  lemma {:induction false} SubtotalOfPrefix(lines: seq<Line>, store: string, i: nat)
    requires i <= |lines|
    ensures 0 <= StoreSubtotal(lines[..i], store) <= StoreSubtotal(lines, store)
    ensures !Open(lines, store, i) ==> StoreSubtotal(lines[..i], store) == StoreSubtotal(lines, store)
  {
    StoreSubtotalBounds(lines[..i], store);
    StoreSubtotalBounds(lines[i..], store);
    assert lines == lines[..i] + lines[i..];
    SumConcat(lines[..i], lines[i..], Only(StoreOf(), store, Total()));
    if !Open(lines, store, i) {
      SumZero(lines[i..], Only(StoreOf(), store, Total()));
    }
  }

  lemma {:induction false} PricedWeights(lines: seq<Line>, split: Split, store: string, i: nat)
    requires i <= |lines|
    ensures In(Priced(lines, split, i), store, Weight()) == StoreSubtotal(lines[..i], store)
  {
    if i > 0 {
      PricedWeights(lines, split, store, i - 1);
      SumPrefix(lines, i - 1, Only(StoreOf(), store, Total()));
      var done := Priced(lines, split, i - 1);
      SumSnoc(done, PricedLine(lines[i - 1], NextDiscount(lines, split, done, i - 1)),
              Only(PricedStore(), store, Weight()));
    }
  }

  lemma {:induction false} WeightsOfPrefix(lines: seq<Line>, split: Split, store: string, i: nat)
    requires i <= |lines|
    ensures In(Priced(lines, split, i), store, Weight()) == StoreSubtotal(lines[..i], store)
    ensures 0 <= StoreSubtotal(lines[..i], store) <= StoreSubtotal(lines, store)
    ensures !Open(lines, store, i) ==> StoreSubtotal(lines[..i], store) == StoreSubtotal(lines, store)
  {
    SubtotalOfPrefix(lines, store, i);
    PricedWeights(lines, split, store, i);
  }

  /** Running totals of one store: discounts, line totals, lines, and excess. */
  datatype Totals = Totals(disc: int, w: int, cnt: int, exc: int)
  {
    function With(l: int, d: int): Totals
    {
      Totals(disc + d, w + l, cnt + 1, exc + if d > l then d - l else 0)
    }
  }

  /** Where the totals stand while more of the store's lines are to come. */
  ghost predicate Running(a: int, sub: int, t: Totals)
  {
    && -(t.cnt as real) / 2.0 <= t.disc as real - Pro(a, t.w, sub) <= t.cnt as real / 2.0
    && (a <= sub ==> t.exc == 0)
    && (a >= sub ==> t.exc == t.disc - t.w)
  }

  lemma {:induction false} RunningStep(a: int, sub: int, t: Totals, l: int, d: int)
    requires Running(a, sub, t) && 0 <= t.w && 0 <= l && t.w + l <= sub
    requires d == if sub > 0 then HalfUp(Pro(a, l, sub)) else 0
    ensures Running(a, sub, t.With(l, d))
  {
    if sub > 0 {
      ProAdds(a, t.w, l, sub);
      ProAgainstPart(a, l, sub);
      HalfUpWithin(Pro(a, l, sub), l);
    }
  }

  /** The last line of a store takes what is left; the excess stays within the store's
      over-allotment plus half a paisa for each earlier line. */
  lemma {:induction false} LastStep(a: int, sub: int, t: Totals, l: int)
    requires Running(a, sub, t) && 0 <= t.w && 0 <= l && t.w + l == sub && 0 <= t.cnt
    requires t.cnt == 0 ==> t.disc == 0 && t.w == 0 && t.exc == 0
    ensures 2 * t.With(l, a - t.disc).exc <= 2 * (if a > sub then a - sub else 0) + t.cnt
  {
    if sub > 0 {
      PartOfDeficit(a, t.w, sub);
    }
  }

  /** (a - sub)(1 - w/sub) has the sign of a - sub and is no larger. */
  lemma {:induction false} PartOfDeficit(a: int, w: int, sub: int)
    requires 0 <= w <= sub && 0 < sub
    ensures a <= sub ==> (a - sub) as real + w as real - Pro(a, w, sub) <= 0.0
    ensures a >= sub ==> Pro(a, w, sub) - w as real <= (a - sub) as real
  {
    var q := w as real / sub as real;
    assert q * sub as real == w as real;
    assert 0.0 <= q <= 1.0;
    var e := (a - sub) as real;
    assert Pro(a, w, sub) == a as real * q == e * q + w as real;
    SignOfProduct(e, 1.0 - q);
    assert e * (1.0 - q) == e - e * q;
  }

  lemma {:induction false} SignOfProduct(x: real, y: real)
    requires y >= 0.0
    ensures x <= 0.0 ==> x * y <= 0.0
    ensures x >= 0.0 ==> x * y >= 0.0
  {
  }

  /** Where the totals of a store stand: not begun, under way, or complete. */
  ghost predicate Progress(begun: bool, open: bool, a: int, sub: int, t: Totals)
  {
    && 0 <= t.cnt && 0 <= t.w
    && (!begun ==> t == Totals(0, 0, 0, 0))
    && (begun ==> t.cnt > 0)
    && (open ==> Running(a, sub, t))
    && (begun && !open ==> t.disc == a && 2 * t.exc <= 2 * (if a > sub then a - sub else 0) + t.cnt - 1)
  }

  function StoreTotals(lines: seq<Line>, split: Split, store: string, i: nat): Totals
    requires i <= |lines|
  {
    var done := Priced(lines, split, i);
    Totals(In(done, store, Discount()), In(done, store, Weight()), In(done, store, One()), In(done, store, Excess()))
  }

  ghost predicate StoreProgress(lines: seq<Line>, split: Split, store: string, i: nat)
    requires i <= |lines|
  {
    Progress(Begun(lines, store, i), Open(lines, store, i), split.allotment(store), StoreSubtotal(lines, store),
             StoreTotals(lines, split, store, i))
  }

  /** One more line of the store: a proportional share, or the remainder when it is the last. */
  lemma {:induction false} ProgressStep(begun: bool, last: bool, a: int, sub: int, t: Totals, l: int, d: int)
    requires Progress(begun, true, a, sub, t) && 0 <= l && t.w + l <= sub
    requires if last then d == a - t.disc && t.w + l == sub else d == if sub > 0 then HalfUp(Pro(a, l, sub)) else 0
    ensures Progress(true, !last, a, sub, t.With(l, d))
  {
    if last {
      LastStep(a, sub, t, l);
    } else {
      RunningStep(a, sub, t, l, d);
    }
  }

  function NextLine(lines: seq<Line>, split: Split, i: nat): PricedLine
    requires i < |lines|
  {
    PricedLine(lines[i], NextDiscount(lines, split, Priced(lines, split, i), i))
  }

  lemma {:induction false} TotalsStep(lines: seq<Line>, split: Split, store: string, i: nat)
    requires i < |lines|
    ensures var t := StoreTotals(lines, split, store, i);
            StoreTotals(lines, split, store, i + 1)
            == if lines[i].store == store then t.With(lines[i].lineTotal, NextLine(lines, split, i).discount) else t
  {
    var done, next := Priced(lines, split, i), NextLine(lines, split, i);
    SumSnoc(done, next, Only(PricedStore(), store, Discount()));
    SumSnoc(done, next, Only(PricedStore(), store, Weight()));
    SumSnoc(done, next, Only(PricedStore(), store, One()));
    SumSnoc(done, next, Only(PricedStore(), store, Excess()));
  }

  lemma {:induction false} OtherStoresLine(lines: seq<Line>, split: Split, store: string, i: nat)
    requires i < |lines| && lines[i].store != store && StoreProgress(lines, split, store, i)
    ensures StoreProgress(lines, split, store, i + 1)
  {
    TotalsStep(lines, split, store, i);
    assert Open(lines, store, i + 1) <==> Open(lines, store, i);
    assert Begun(lines, store, i + 1) <==> Begun(lines, store, i);
  }

  lemma {:induction false} OwnWeight(lines: seq<Line>, split: Split, store: string, i: nat)
    requires i < |lines| && lines[i].store == store
    ensures var w := In(Priced(lines, split, i), store, Weight());
            && 0 <= w && w + lines[i].lineTotal <= StoreSubtotal(lines, store)
            && (IsLastInStore(lines, i) ==> w + lines[i].lineTotal == StoreSubtotal(lines, store))
  {
    WeightsOfPrefix(lines, split, store, i);
    WeightsOfPrefix(lines, split, store, i + 1);
    SumPrefix(lines, i, Only(StoreOf(), store, Total()));
    assert IsLastInStore(lines, i) ==> !Open(lines, store, i + 1);
  }

  ghost predicate Fair(lines: seq<Line>, split: Split)
  {
    forall l | l in lines :: split.portion(l) == Proportional(lines, split.allotment)(l)
  }

  lemma {:induction false} OwnLine(lines: seq<Line>, split: Split, store: string, i: nat)
    requires i < |lines| && lines[i].store == store && StoreProgress(lines, split, store, i) && Fair(lines, split)
    ensures StoreProgress(lines, split, store, i + 1)
  {
    TotalsStep(lines, split, store, i);
    OwnWeight(lines, split, store, i);
    OpensAndCloses(lines, store, i);
    ProgressStep(Begun(lines, store, i), IsLastInStore(lines, i), split.allotment(store), StoreSubtotal(lines, store),
                 StoreTotals(lines, split, store, i), lines[i].lineTotal, NextLine(lines, split, i).discount);
  }

  lemma {:induction false} OpensAndCloses(lines: seq<Line>, store: string, i: nat)
    requires i < |lines| && lines[i].store == store
    ensures Begun(lines, store, i + 1) && Open(lines, store, i)
    ensures IsLastInStore(lines, i) <==> !Open(lines, store, i + 1)
  {
  }

  lemma {:induction false} StoreProgresses(lines: seq<Line>, split: Split, store: string, i: nat)
    requires i <= |lines| && Fair(lines, split)
    ensures StoreProgress(lines, split, store, i)
  {
    if i == 0 {
      if StoreSubtotal(lines, store) != 0 {
        ProOfWhole(split.allotment(store), StoreSubtotal(lines, store));
      }
    } else {
      StoreProgresses(lines, split, store, i - 1);
      if lines[i - 1].store == store {
        OwnLine(lines, split, store, i - 1);
      } else {
        OtherStoresLine(lines, split, store, i - 1);
      }
    }
  }

  // ---- the cart -------------------------------------------------------------------

  /** Within each store the line discounts add up to the store's share. */
  lemma {:induction false} LinesTakeTheShare(lines: seq<Line>, discount: int, store: string)
    requires store in Stores(lines)
    ensures In(PricedCart(lines, discount), store, Discount()) == Allotment(lines, discount)(store)
  {
    StoreProgresses(lines, CartSplit(lines, discount), store, |lines|);
    StoreBegun(lines, store);
  }

  lemma {:induction false} StoreBegun(lines: seq<Line>, store: string)
    requires store in Stores(lines)
    ensures Begun(lines, store, |lines|)
  {
    var l :| l in lines && StoreOf()(l) == store;
    var j :| 0 <= j < |lines| && lines[j] == l;
    assert lines[j].store == store;
  }

  lemma {:induction false} LineAt(lines: seq<Line>, split: Split, i: nat, j: nat)
    requires j < i <= |lines|
    ensures Priced(lines, split, i)[j] == NextLine(lines, split, j)
  {
    if j < i - 1 { LineAt(lines, split, i - 1, j); }
  }

  lemma {:induction false} LinesOfCart(lines: seq<Line>, split: Split)
    ensures forall p | p in Priced(lines, split, |lines|) :: p.line in lines
  {
    forall p | p in Priced(lines, split, |lines|) ensures p.line in lines {
      var j :| 0 <= j < |lines| && Priced(lines, split, |lines|)[j] == p;
      LineAt(lines, split, |lines|, j);
    }
  }

  lemma {:induction false} RoundedPart(a: int, weight: int, whole: int)
    requires whole > 0
    ensures -whole <= 2 * (HalfUp(Pro(a, weight, whole)) * whole - a * weight) <= whole
  {
    ProTimes(a, weight, whole);
    DriftTimes(HalfUp(Pro(a, weight, whole)), Pro(a, weight, whole), a * weight, whole, 1);
  }

  lemma {:induction false} LinePortion(lines: seq<Line>, split: Split, li: nat)
    requires li < |lines| && !IsLastInStore(lines, li)
    ensures Priced(lines, split, |lines|)[li] == PricedLine(lines[li], split.portion(lines[li]))
  {
    LineAt(lines, split, |lines|, li);
  }

  /** A line that is not the last of its store takes of the store's share what it is of the store's
      subtotal, to within half a paisa. */
  lemma {:induction false} LineOutright(lines: seq<Line>, discount: int, li: nat)
    requires li < |lines| && !IsLastInStore(lines, li) && StoreSubtotal(lines, lines[li].store) > 0
    ensures |PricedCart(lines, discount)| == |lines| && PricedCart(lines, discount)[li].line == lines[li]
    ensures var sub, share := StoreSubtotal(lines, lines[li].store), Allotment(lines, discount)(lines[li].store);
            -sub <= 2 * (PricedCart(lines, discount)[li].discount * sub - share * lines[li].lineTotal) <= sub
  {
    var sub, share := StoreSubtotal(lines, lines[li].store), Allotment(lines, discount)(lines[li].store);
    LinePortion(lines, CartSplit(lines, discount), li);
    RoundedPart(share, lines[li].lineTotal, sub);
    assert PricedCart(lines, discount)[li].discount == Proportional(lines, Allotment(lines, discount))(lines[li]);
  }

  lemma {:induction false} CartWeights(lines: seq<Line>, split: Split, i: nat)
    requires i <= |lines|
    ensures Sum(Priced(lines, split, i), Weight()) == Subtotal(lines[..i])
  {
    if i > 0 {
      CartWeights(lines, split, i - 1);
      SumPrefix(lines, i - 1, Total());
      SumSnoc(Priced(lines, split, i - 1), NextLine(lines, split, i - 1), Weight());
    }
  }

  /** Sums over the priced cart regroup by store. */
  lemma {:induction false} CartByStore(lines: seq<Line>, discount: int, f: PricedLine -> int)
    ensures Sum(Stores(lines), PerGroup(PricedCart(lines, discount), PricedStore(), f))
            == Sum(PricedCart(lines, discount), f)
  {
    LinesOfCart(lines, CartSplit(lines, discount));
    forall p | p in PricedCart(lines, discount) ensures PricedStore()(p) in Stores(lines) {
      assert StoreOf()(p.line) in Stores(lines);
    }
    GroupsAddUp(PricedCart(lines, discount), Stores(lines), PricedStore(), f);
  }

  function Twice<T>(f: T -> int): T -> int { (x: T) => 2 * f(x) }

  function SlackOf(lines: seq<Line>, discount: int): string -> int
  {
    (s: string) => 2 * Over(lines, discount)(s) + In(PricedCart(lines, discount), s, One()) - 1
  }

  lemma {:induction false} SumTwice<T>(xs: seq<T>, f: T -> int)
    ensures Sum(xs, Twice(f)) == 2 * Sum(xs, f)
  {
    if xs != [] { SumTwice(xs[..|xs| - 1], f); }
  }

  lemma {:induction false} SumOnes<T>(xs: seq<T>)
    ensures Sum(xs, One()) == |xs|
  {
    if xs != [] { SumOnes(xs[..|xs| - 1]); }
  }

  lemma {:induction false} SumSlack(lines: seq<Line>, discount: int, stores: seq<string>)
    ensures Sum(stores, SlackOf(lines, discount))
            == 2 * Sum(stores, Over(lines, discount))
               + Sum(stores, PerGroup(PricedCart(lines, discount), PricedStore(), One())) - |stores|
  {
    if stores != [] { SumSlack(lines, discount, stores[..|stores| - 1]); }
  }

  lemma {:induction false} StoreExcess(lines: seq<Line>, discount: int, store: string)
    requires store in Stores(lines)
    ensures In(PricedCart(lines, discount), store, Discount()) == Allotment(lines, discount)(store)
    ensures 2 * In(PricedCart(lines, discount), store, Excess())
            <= 2 * Over(lines, discount)(store) + In(PricedCart(lines, discount), store, One()) - 1
  {
    StoreProgresses(lines, CartSplit(lines, discount), store, |lines|);
    StoreBegun(lines, store);
    assert !Open(lines, store, |lines|);
  }

  /** The line discounts add up to the discount, and the floor at zero gives back at most
      half a paisa for every line but one. */
  lemma {:induction false} ExcessIsBounded(lines: seq<Line>, discount: int)
    requires lines != [] && 0 <= discount <= Subtotal(lines) && Subtotal(lines) > 0
    ensures Sum(PricedCart(lines, discount), Discount()) == discount
    ensures 0 <= 2 * Sum(PricedCart(lines, discount), Excess()) <= |lines| - 1
  {
    var stores, cart := Stores(lines), PricedCart(lines, discount);
    forall s | s in stores
      ensures PerGroup(cart, PricedStore(), Discount())(s) == Allotment(lines, discount)(s)
      ensures Twice(PerGroup(cart, PricedStore(), Excess()))(s) <= SlackOf(lines, discount)(s)
    {
      StoreExcess(lines, discount, s);
    }
    CartByStore(lines, discount, Discount());
    CartByStore(lines, discount, Excess());
    CartByStore(lines, discount, One());
    SumEqual(stores, PerGroup(cart, PricedStore(), Discount()), Allotment(lines, discount));
    AllotmentsAddUp(lines, discount);
    SumAtMost(stores, Twice(PerGroup(cart, PricedStore(), Excess())), SlackOf(lines, discount));
    SumTwice(stores, PerGroup(cart, PricedStore(), Excess()));
    SumSlack(lines, discount, stores);
    SumOnes(cart);
    OverAllotment(lines, discount);
    SumAtMost(cart, Point0(), Excess());
    SumZero(cart, Point0());
  }

  lemma {:induction false} AllotmentsAddUp(lines: seq<Line>, discount: int)
    requires lines != []
    ensures Sum(Stores(lines), Allotment(lines, discount)) == discount
  {
    var stores, shares := Stores(lines), AllShares(lines, discount);
    forall i | 0 <= i < |stores| ensures Allotment(lines, discount)(stores[i]) == shares[i] {
      ShareOfIndex(stores, shares, i);
    }
    SumsOfEqualItems(stores, Allotment(lines, discount), shares);
    assert StoreOf()(lines[0]) in stores;
    SharesTakeTheTotal(stores, RoundedShare(lines, discount), discount);
  }

  lemma {:induction false} SumsOfEqualItems<K>(keys: seq<K>, f: K -> int, values: seq<int>)
    requires |keys| == |values| && forall i | 0 <= i < |keys| :: f(keys[i]) == values[i]
    ensures Sum(keys, f) == Sum(values, Identity())
  {
    if keys != [] {
      SumsOfEqualItems(keys[..|keys| - 1], f, values[..|values| - 1]);
    }
  }

  /** The pre-tax amount charged: never below the discounted subtotal, above it by at most half
      a paisa for every line but one, and equal to it exactly when no line is clamped. */
  lemma {:induction false} PreTaxCharge(lines: seq<Line>, discount: int)
    requires lines != [] && 0 <= discount <= Subtotal(lines) && Subtotal(lines) > 0
    ensures var net := Sum(PricedCart(lines, discount), NetOf());
            && net == Subtotal(lines) - discount + Sum(PricedCart(lines, discount), Excess())
            && Subtotal(lines) - discount <= net
            && 2 * (net - (Subtotal(lines) - discount)) <= |lines| - 1
            && (net == Subtotal(lines) - discount <==> NoneClamped(lines, discount))
  {
    var cart := PricedCart(lines, discount);
    ExcessIsBounded(lines, discount);
    CartWeights(lines, CartSplit(lines, discount), |lines|);
    assert lines[..|lines|] == lines;
    NetSum(cart);
    NoExcess(cart);
  }

  /** No line is given more than it sells, so the floor at zero is idle. */
  ghost predicate NoneClamped(lines: seq<Line>, discount: int)
  {
    forall p | p in PricedCart(lines, discount) :: p.discount <= p.line.lineTotal
  }

  lemma {:induction false} NoExcess(cart: seq<PricedLine>)
    ensures Sum(cart, Excess()) >= 0
    ensures Sum(cart, Excess()) == 0 <==> forall p | p in cart :: p.discount <= p.line.lineTotal
  {
    if cart != [] {
      NoExcess(cart[..|cart| - 1]);
      assert cart == cart[..|cart| - 1] + [cart[|cart| - 1]];
    }
  }

  lemma {:induction false} NetSum(cart: seq<PricedLine>)
    ensures Sum(cart, NetOf()) == Sum(cart, Weight()) - Sum(cart, Discount()) + Sum(cart, Excess())
  {
    if cart != [] { NetSum(cart[..|cart| - 1]); }
  }

  // ---- special carts --------------------------------------------------------------

  /** An amount with GST at one rate, exactly. */
  function WithGst(base: real, rate: real): real
  {
    base * (1.0 + rate / 100.0)
  }

  /** At one tax rate the total is the taxed pre-tax charge, rounded once. */
  lemma {:induction false} SingleRateTotal(lines: seq<Line>, discount: int, rate: real)
    requires forall l | l in lines :: l.taxRate == rate
    ensures CustomerTotal(lines, discount) == HalfUp(WithGst(Sum(PricedCart(lines, discount), NetOf()) as real, rate))
  {
    LinesOfCart(lines, CartSplit(lines, discount));
    ChargedAtOneRate(PricedCart(lines, discount), rate);
  }

  lemma {:induction false} ChargedAtOneRate(cart: seq<PricedLine>, rate: real)
    requires forall p | p in cart :: p.line.taxRate == rate
    ensures RealTotal(cart, Charged()) == WithGst(Sum(cart, NetOf()) as real, rate)
  {
    forall p | p in cart ensures Charged()(p) == NetOf()(p) as real * (1.0 + rate / 100.0) {
      LineAtOneRate(p.Net() as real, rate);
    }
    RealTotalScaled(cart, Charged(), NetOf(), 1.0 + rate / 100.0);
  }

  lemma {:induction false} LineAtOneRate(net: real, rate: real)
    ensures net + net * rate / 100.0 == net * (1.0 + rate / 100.0)
  {
    var q := rate / 100.0;
    assert rate == q * 100.0;
    assert net * rate == (net * q) * 100.0;
    assert net * (1.0 + q) == net + net * q;
  }

  /** However the drift was spread, a single-rate cart pays the taxed discounted subtotal exactly
      when no line is clamped; clamped lines raise it, within the excess bound. */
  lemma {:induction false} SingleRateCharge(lines: seq<Line>, discount: int, rate: real)
    requires lines != [] && 0 <= discount <= Subtotal(lines) && Subtotal(lines) > 0
    requires rate >= 0.0 && forall l | l in lines :: l.taxRate == rate
    ensures var low := (Subtotal(lines) - discount) as real;
            && (CustomerTotal(lines, discount) == HalfUp(WithGst(low, rate)) <==> NoneClamped(lines, discount))
            && HalfUp(WithGst(low, rate)) <= CustomerTotal(lines, discount)
                  <= HalfUp(WithGst(low + (|lines| - 1) as real / 2.0, rate))
  {
    SingleRateTotal(lines, discount, rate);
    PreTaxCharge(lines, discount);
    TaxedBetween(Subtotal(lines) - discount, Sum(PricedCart(lines, discount), NetOf()), |lines| - 1, rate);
  }

  lemma {:induction false} TaxedBetween(low: int, net: int, k: int, rate: real)
    requires low <= net && 2 * (net - low) <= k && rate >= 0.0
    ensures HalfUp(WithGst(low as real, rate)) <= HalfUp(WithGst(net as real, rate))
            <= HalfUp(WithGst(low as real + k as real / 2.0, rate))
    ensures HalfUp(WithGst(low as real, rate)) == HalfUp(WithGst(net as real, rate)) <==> low == net
  {
    if low < net { TaxedApart(low as real, net as real, rate); }
    TaxedMonotone(low as real, net as real, rate);
    TaxedMonotone(net as real, low as real + k as real / 2.0, rate);
  }

  lemma {:induction false} TaxedMonotone(low: real, high: real, rate: real)
    requires low <= high && rate >= 0.0
    ensures HalfUp(WithGst(low, rate)) <= HalfUp(WithGst(high, rate))
  {
    FactorAtLeastOne(rate);
    ScaledMonotone(low, high, 1.0 + rate / 100.0, WithGst(low, rate), WithGst(high, rate));
  }

  lemma {:induction false} ScaledMonotone(x: real, y: real, factor: real, p: real, q: real)
    requires x <= y && factor >= 0.0 && p == x * factor && q == y * factor
    ensures HalfUp(p) <= HalfUp(q)
  {
    ScaleMonotone(x, y, factor);
    HalfUpMonotone(p, q);
  }

  /** A paisa more before tax is at least a paisa more after it, rounded or not. */
  lemma {:induction false} TaxedApart(low: real, net: real, rate: real)
    requires low + 1.0 <= net && rate >= 0.0
    ensures HalfUp(WithGst(low, rate)) < HalfUp(WithGst(net, rate))
  {
    FactorAtLeastOne(rate);
    ScaledApart(low, net, 1.0 + rate / 100.0, WithGst(low, rate), WithGst(net, rate));
  }

  lemma {:induction false} ScaledApart(x: real, y: real, factor: real, p: real, q: real)
    requires x + 1.0 <= y && factor >= 1.0 && p == x * factor && q == y * factor
    ensures HalfUp(p) < HalfUp(q)
  {
    ScaleApart(x, y - x, factor);
    HalfUpApart(p, q);
  }

  lemma {:induction false} HalfUpApart(x: real, y: real)
    requires x + 1.0 <= y
    ensures HalfUp(x) < HalfUp(y)
  {
  }

  lemma {:induction false} ScaleApart(x: real, d: real, factor: real)
    requires d >= 1.0 && factor >= 1.0
    ensures x * factor + 1.0 <= (x + d) * factor
  {
    ScaleMonotone(1.0, d, factor);
    assert (x + d) * factor == x * factor + d * factor;
  }

  lemma {:induction false} FactorAtLeastOne(rate: real)
    requires rate >= 0.0
    ensures 1.0 + rate / 100.0 >= 1.0
  {
  }

  lemma {:induction false} ScaleMonotone(x: real, y: real, factor: real)
    requires x <= y && factor >= 0.0
    ensures x * factor <= y * factor
  {
  }

  /** A discount of the whole subtotal leaves nothing on any line, nor in the total. */
  lemma {:induction false} FullDiscountIsFree(lines: seq<Line>)
    requires Subtotal(lines) > 0
    ensures forall p | p in PricedCart(lines, Subtotal(lines)) :: p.discount == p.line.lineTotal && p.Net() == 0
    ensures CustomerTotal(lines, Subtotal(lines)) == 0
  {
    var split := CartSplit(lines, Subtotal(lines));
    forall store | store in Stores(lines) ensures split.allotment(store) == StoreSubtotal(lines, store) {
      FullDiscountAllotment(lines, store);
    }
    forall l | l in lines ensures split.portion(l) == l.lineTotal {
      assert StoreOf()(l) in Stores(lines);
      PortionOfFullStore(lines, split.allotment, l);
    }
    FullAllotmentIsFree(lines, split, |lines|);
    ZeroCharge(PricedCart(lines, Subtotal(lines)));
  }

  lemma {:induction false} PortionOfFullStore(lines: seq<Line>, allotment: string -> int, l: Line)
    requires l in lines && allotment(l.store) == StoreSubtotal(lines, l.store)
    ensures Proportional(lines, allotment)(l) == l.lineTotal
  {
    LineWithinStore(lines, l);
    if StoreSubtotal(lines, l.store) > 0 {
      ProSymmetric(StoreSubtotal(lines, l.store), l.lineTotal);
    }
  }

  lemma {:induction false} LineWithinStore(lines: seq<Line>, l: Line)
    requires l in lines
    ensures l.lineTotal <= StoreSubtotal(lines, l.store)
  {
    var i :| 0 <= i < |lines| && lines[i] == l;
    StoreSubtotalBounds(lines[..i], l.store);
    StoreSubtotalBounds(lines[i + 1..], l.store);
    SumPrefix(lines, i, Only(StoreOf(), l.store, Total()));
    assert lines == lines[..i + 1] + lines[i + 1..];
    SumConcat(lines[..i + 1], lines[i + 1..], Only(StoreOf(), l.store, Total()));
  }

  lemma {:induction false} ZeroCharge(cart: seq<PricedLine>)
    requires forall p | p in cart :: p.Net() == 0
    ensures RealTotal(cart, Charged()) == 0.0
  {
    if cart != [] {
      assert cart[|cart| - 1] in cart;
      ZeroCharge(cart[..|cart| - 1]);
    }
  }

  lemma {:induction false} FullDiscountAllotment(lines: seq<Line>, store: string)
    requires Subtotal(lines) > 0 && store in Stores(lines)
    ensures Allotment(lines, Subtotal(lines))(store) == StoreSubtotal(lines, store)
  {
    var stores, portion, whole := Stores(lines), RoundedShare(lines, Subtotal(lines)), Subtotal(lines);
    forall i | 0 <= i < |stores| ensures portion(stores[i]) == SubtotalOf(lines)(stores[i]) {
      ProSymmetric(whole, StoreSubtotal(lines, stores[i]));
    }
    StoreSubtotalsAddUp(lines);
    SharesAtPortions(stores, portion, SubtotalOf(lines), whole, |stores|);
    var i :| 0 <= i < |stores| && stores[i] == store;
    ShareOfIndex(stores, AllShares(lines, whole), i);
  }

  ghost predicate AtPortions(shares: seq<int>, keys: seq<string>, f: string -> int)
  {
    |shares| <= |keys| && forall i | 0 <= i < |shares| :: shares[i] == f(keys[i])
  }

  lemma {:induction false} OneMoreShare(before: seq<int>, keys: seq<string>, f: string -> int)
    requires AtPortions(before, keys, f) && |before| < |keys|
    requires Sum(before, Identity()) == Sum(keys[..|before|], f)
    ensures var shares := before + [f(keys[|before|])];
            AtPortions(shares, keys, f) && Sum(shares, Identity()) == Sum(keys[..|shares|], f)
  {
    SumPrefix(keys, |before|, f);
    SumSnoc(before, f(keys[|before|]), Identity());
  }

  /** When the portions already add up to the total, the last share is its portion too. */
  lemma {:induction false} SharesAtPortions(keys: seq<string>, portion: string -> int, f: string -> int, total: int,
                                            k: nat)
    requires k <= |keys| && total == Sum(keys, f)
    requires forall i | 0 <= i < |keys| :: portion(keys[i]) == f(keys[i])
    ensures AtPortions(Shares(keys, portion, total, k), keys, f)
    ensures Sum(Shares(keys, portion, total, k), Identity()) == Sum(keys[..k], f)
  {
    if k > 0 {
      SharesAtPortions(keys, portion, f, total, k - 1);
      var before := Shares(keys, portion, total, k - 1);
      SharesEndAt(keys, portion, f, total, k);
      assert Shares(keys, portion, total, k) == before + [f(keys[k - 1])];
      OneMoreShare(before, keys, f);
    }
  }

  lemma {:induction false} SharesEndAt(keys: seq<string>, portion: string -> int, f: string -> int, total: int, k: nat)
    requires 0 < k <= |keys| && total == Sum(keys, f) && portion(keys[k - 1]) == f(keys[k - 1])
    requires Sum(Shares(keys, portion, total, k - 1), Identity()) == Sum(keys[..k - 1], f)
    ensures Shares(keys, portion, total, k)[k - 1] == f(keys[k - 1])
  {
  }

  lemma {:induction false} ProSymmetric(whole: int, part: int)
    requires whole != 0
    ensures Pro(whole, part, whole) == part as real
    ensures HalfUp(part as real) == part
  {
    var w := whole as real;
    assert w * (part as real / w) == part as real;
  }

  lemma {:induction false} FullAllotmentIsFree(lines: seq<Line>, split: Split, i: nat)
    requires i <= |lines|
    requires forall store | store in Stores(lines) :: split.allotment(store) == StoreSubtotal(lines, store)
    requires forall l | l in lines :: split.portion(l) == l.lineTotal
    ensures forall p | p in Priced(lines, split, i) :: p.discount == p.line.lineTotal
  {
    if i > 0 {
      FullAllotmentIsFree(lines, split, i - 1);
      var done, line := Priced(lines, split, i - 1), lines[i - 1];
      assert StoreOf()(line) in Stores(lines);
      OwnWeight(lines, split, line.store, i - 1);
      SumEqual(done, Only(PricedStore(), line.store, Discount()), Only(PricedStore(), line.store, Weight()));
      assert NextLine(lines, split, i - 1).discount == line.lineTotal;
    }
  }
}
