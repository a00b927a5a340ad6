/** The coupon table and validateAndCompute, with its loops proved against the shares. */
module CouponService {
  import opened Options
  import opened Rounding
  import opened Sums
  import opened Coupon
  import opened CouponProofs

  datatype DiscountType = Percentage | FixedAmount | Unknown

  /** A coupon row; amounts of money are in paise, discountValue of a percentage in percent. */
  datatype CouponRow = CouponRow(storeId: Option<string>, discountType: DiscountType, discountValue: real,
                                 minimumPurchase: Option<real>, maximumDiscount: Option<real>,
                                 usageLimit: Option<int>, usageLimitPerUser: Option<int>,
                                 validFrom: int, validUntil: int, isActive: bool, deleted: bool)

  /** An update names the columns it changes. */
  datatype CouponUpdate = CouponUpdate(storeId: Option<Option<string>>, discountType: Option<DiscountType>,
                                       discountValue: Option<real>, minimumPurchase: Option<Option<real>>,
                                       maximumDiscount: Option<Option<real>>, usageLimit: Option<Option<int>>,
                                       usageLimitPerUser: Option<Option<int>>, validFrom: Option<int>,
                                       validUntil: Option<int>, isActive: Option<bool>)
  {
    function Over(c: CouponRow): CouponRow
    {
      CouponRow(storeId.Or(c.storeId), discountType.Or(c.discountType), discountValue.Or(c.discountValue),
                minimumPurchase.Or(c.minimumPurchase), maximumDiscount.Or(c.maximumDiscount),
                usageLimit.Or(c.usageLimit), usageLimitPerUser.Or(c.usageLimitPerUser),
                validFrom.Or(c.validFrom), validUntil.Or(c.validUntil), isActive.Or(c.isActive), c.deleted)
    }
  }

  /** A column that the update names is changed, and any other kept; no update revives a row. */
  lemma {:induction false} MergedColumns(input: CouponUpdate, c: CouponRow)
    ensures var row := input.Over(c);
            && (input.storeId.None? ==> row.storeId == c.storeId)
            && (input.discountType.None? ==> row.discountType == c.discountType)
            && (input.discountValue.None? ==> row.discountValue == c.discountValue)
            && (input.minimumPurchase.None? ==> row.minimumPurchase == c.minimumPurchase)
            && (input.maximumDiscount.None? ==> row.maximumDiscount == c.maximumDiscount)
            && (input.usageLimit.None? ==> row.usageLimit == c.usageLimit)
            && (input.usageLimitPerUser.None? ==> row.usageLimitPerUser == c.usageLimitPerUser)
            && (input.validFrom.None? ==> row.validFrom == c.validFrom)
            && (input.validUntil.None? ==> row.validUntil == c.validUntil)
            && (input.isActive.None? ==> row.isActive == c.isActive) && row.deleted == c.deleted
    ensures var row := input.Over(c);
            && input.storeId in {None, Some(row.storeId)} && input.discountType in {None, Some(row.discountType)}
            && input.discountValue in {None, Some(row.discountValue)}
            && input.minimumPurchase in {None, Some(row.minimumPurchase)}
            && input.maximumDiscount in {None, Some(row.maximumDiscount)}
            && input.usageLimit in {None, Some(row.usageLimit)}
            && input.usageLimitPerUser in {None, Some(row.usageLimitPerUser)}
            && input.validFrom in {None, Some(row.validFrom)} && input.validUntil in {None, Some(row.validUntil)}
            && input.isActive in {None, Some(row.isActive)}
  {
  }

  /** What create and update insist on. */
  predicate WellFormed(c: CouponRow)
  {
    c.validFrom < c.validUntil && (c.discountType.Percentage? ==> c.discountValue <= 100.0)
  }

  datatype Reason =
    | NoCode | EmptyCart | UnknownCode | Inactive | NotActiveYet | Expired | OtherStore | BelowMinimum
    | UsageLimitReached | CustomerLimitReached | Misconfigured | NoDiscount

  datatype Outcome =
    | Rejected(reason: Reason, subtotal: int, subtotalInclTax: int, customerTotal: int)
    | Accepted(discountAmount: int, subtotal: int, subtotalInclTax: int, discountInclTax: int, customerTotal: int,
               perStoreDiscount: map<string, int>)

  function PercentOf(amount: int, percent: real): real
  {
    amount as real * (percent / 100.0)
  }

  /** The discount before rounding; none for a type the code does not know. */
  function RawDiscount(c: CouponRow, subtotal: int): Option<real>
  {
    match c.discountType
    case Percentage =>
      var share := PercentOf(subtotal, c.discountValue);
      var cap := c.maximumDiscount.Or(0.0);
      Some(if cap > 0.0 && cap < share then cap else share)
    case FixedAmount => Some(if c.discountValue < subtotal as real then c.discountValue else subtotal as real)
    case Unknown => None
  }

  /** A discount of d paise on a subtotal of s is what the coupon promises: a fixed amount up to the
      subtotal, or a percentage up to its cap, to the nearest paisa. */
  ghost predicate Promises(c: CouponRow, s: int, d: int)
  {
    var cap := c.maximumDiscount.Or(0.0);
    match c.discountType
    case FixedAmount => if c.discountValue >= s as real then d == s else d == HalfUp(c.discountValue)
    case Percentage =>
      if cap > 0.0 && s as real * c.discountValue >= 100.0 * cap then d == HalfUp(cap)
      else -50.0 < 100.0 * d as real - s as real * c.discountValue <= 50.0 && (cap > 0.0 ==> d <= HalfUp(cap))
    case Unknown => false
  }

  lemma {:induction false} DiscountAsPromised(c: CouponRow, s: int)
    requires RawDiscount(c, s).Some?
    ensures Promises(c, s, HalfUp(RawDiscount(c, s).value))
  {
    var cap, share := c.maximumDiscount.Or(0.0), PercentOf(s, c.discountValue);
    assert s as real * c.discountValue == 100.0 * share;
    if cap > 0.0 && share <= cap { HalfUpMonotone(share, cap); }
  }

  /** The guards before the arithmetic. */
  predicate Redeemable(c: CouponRow, lines: seq<Line>, now: int, totalUsed: nat, usedByCustomer: nat)
  {
    && !c.deleted && c.isActive && c.validFrom <= now <= c.validUntil
    && (c.storeId.Some? && c.storeId.value != "" ==> forall l | l in lines :: l.store == c.storeId.value)
    && (c.minimumPurchase.Or(0.0) > 0.0 ==> Subtotal(lines) as real >= c.minimumPurchase.Or(0.0))
    && (c.usageLimit.Or(0) > 0 ==> totalUsed < c.usageLimit.Or(0))
    && (c.usageLimitPerUser.Or(0) > 0 ==> usedByCustomer < c.usageLimitPerUser.Or(0))
    && RawDiscount(c, Subtotal(lines)).Some?
    && HalfUp(RawDiscount(c, Subtotal(lines)).value) > 0
  }

  /** The discount exceeds what the cart costs exactly for a percentage above 100 on a cart large
      enough for the difference to reach half a paisa, unless a cap stays below that; never for a
      well-formed coupon. */
  lemma {:induction false} DiscountWithinSubtotal(c: CouponRow, subtotal: nat)
    requires RawDiscount(c, subtotal).Some?
    ensures WellFormed(c) ==> HalfUp(RawDiscount(c, subtotal).value) <= subtotal
    ensures HalfUp(RawDiscount(c, subtotal).value) > subtotal <==>
              && c.discountType.Percentage? && subtotal as real * (c.discountValue - 100.0) >= 50.0
              && (c.maximumDiscount.Or(0.0) <= 0.0 || c.maximumDiscount.Or(0.0) >= subtotal as real + 0.5)
  {
    PercentOfWhole(subtotal, c.discountValue);
    HalfUpReaches(RawDiscount(c, subtotal).value, subtotal);
    if WellFormed(c) && c.discountType.Percentage? { NonPositive(subtotal as real, c.discountValue - 100.0); }
  }

  lemma {:induction false} NonPositive(a: real, b: real)
    requires a >= 0.0 && b <= 0.0
    ensures a * b <= 0.0
  {
  }

  lemma {:induction false} HalfUpReaches(x: real, n: int)
    ensures HalfUp(x) > n <==> x >= n as real + 0.5
  {
  }

  lemma {:induction false} PercentOfWhole(amount: nat, percent: real)
    ensures PercentOf(amount, percent) >= amount as real + 0.5 <==> amount as real * (percent - 100.0) >= 50.0
  {
    var a, e := amount as real, percent / 100.0 - 1.0;
    assert a * (percent / 100.0) == a + a * e;
    assert a * (percent - 100.0) == (a * e) * 100.0;
  }

  lemma {:induction false} SubtotalNonNegative(lines: seq<Line>)
    ensures Subtotal(lines) >= 0
  {
    SumAtMost(lines, Point0(), Total());
    SumZero(lines, Point0());
  }

  function LookUp(m: map<string, int>): string -> int
  {
    (k: string) => if k in m then m[k] else 0
  }

  ghost function StoreSet(lines: seq<Line>): set<string>
  {
    set l | l in lines :: l.store
  }

  ghost predicate HoldsSubtotals(lines: seq<Line>, subtotals: map<string, int>)
  {
    subtotals.Keys == StoreSet(lines) && forall s | s in subtotals :: subtotals[s] == StoreSubtotal(lines, s)
  }

  method StoreSubtotals(lines: seq<Line>) returns (subtotals: map<string, int>)
    ensures forall s :: s in subtotals <==> exists l | l in lines :: l.store == s
    ensures forall s | s in subtotals :: subtotals[s] == StoreSubtotal(lines, s)
  {
    subtotals := map[];
    assert StoreSet(lines[..0]) == {};
    for i := 0 to |lines|
      invariant HoldsSubtotals(lines[..i], subtotals)
    {
      var l := lines[i];
      assert lines[..i + 1] == lines[..i] + [l];
      OneMoreSubtotal(lines[..i], l, subtotals);
      subtotals := subtotals[l.store := (if l.store in subtotals then subtotals[l.store] else 0) + l.lineTotal];
    }
    assert lines[..|lines|] == lines;
  }

  lemma {:induction false} OneMoreSubtotal(lines: seq<Line>, l: Line, subtotals: map<string, int>)
    requires HoldsSubtotals(lines, subtotals)
    ensures var before := if l.store in subtotals then subtotals[l.store] else 0;
            HoldsSubtotals(lines + [l], subtotals[l.store := before + l.lineTotal])
  {
    assert StoreSet(lines + [l]) == StoreSet(lines) + {l.store};
    forall s: string
      ensures StoreSubtotal(lines + [l], s)
              == StoreSubtotal(lines, s) + if s == l.store then l.lineTotal else 0
    {
      SumSnoc(lines, l, Only(StoreOf(), s, Total()));
    }
    if l.store !in subtotals { SumZero(lines, Only(StoreOf(), l.store, Total())); }
  }

  /** The map that a loop over the keys fills, one value after the other. */
  function Filled(keys: seq<string>, values: seq<int>): map<string, int>
    requires |values| <= |keys|
  {
    if values == [] then map[] else Filled(keys, values[..|values| - 1])[keys[|values| - 1] := values[|values| - 1]]
  }

  lemma {:induction false} FilledHolds(keys: seq<string>, values: seq<int>)
    requires Distinct(keys) && |values| <= |keys|
    ensures forall s :: s in Filled(keys, values) <==> s in keys[..|values|]
    ensures forall j | 0 <= j < |values| :: Filled(keys, values)[keys[j]] == values[j]
  {
    if values != [] {
      var k := |values| - 1;
      FilledHolds(keys, values[..k]);
      assert keys[..k + 1] == keys[..k] + [keys[k]];
    }
  }

  /** The allocation loop over stores: portions, and the remainder for the last store. */
  method AllocateToStores(storeIds: seq<string>, discount: int, subtotals: map<string, int>, subtotal: int,
                          ghost portion: string -> int)
    returns (perStoreDiscount: map<string, int>)
    requires forall s | s in storeIds :: s in subtotals
    requires forall s {:trigger subtotals[s]} | s in storeIds ::
               portion(s) == HalfUp(Pro(discount, subtotals[s], subtotal))
    ensures perStoreDiscount == Filled(storeIds, Shares(storeIds, portion, discount, |storeIds|))
  {
    perStoreDiscount := map[];
    var handedOut := 0;
    ghost var shares: seq<int> := [];
    for i := 0 to |storeIds|
      invariant |shares| == i && shares == Shares(storeIds, portion, discount, i)
      invariant i < |storeIds| ==> handedOut == Sum(shares, Identity())
      invariant perStoreDiscount == Filled(storeIds, shares)
    {
      var sid := storeIds[i];
      var share;
      if i == |storeIds| - 1 {
        share := discount - handedOut;
      } else {
        share := HalfUp(Pro(discount, subtotals[sid], subtotal));
        handedOut := handedOut + share;
      }
      SumSnoc(shares, share, Identity());
      assert (shares + [share])[..i] == shares;
      shares := shares + [share];
      perStoreDiscount := perStoreDiscount[sid := share];
    }
  }

  lemma {:induction false} SharesAreAllotments(lines: seq<Line>, discount: int, m: map<string, int>)
    requires lines != []
    requires m == Filled(Stores(lines), AllShares(lines, discount))
    ensures forall s :: s in m <==> s in Stores(lines)
    ensures forall s | s in Stores(lines) :: m[s] == Allotment(lines, discount)(s)
    ensures Sum(Stores(lines), LookUp(m)) == discount
  {
    FilledHolds(Stores(lines), AllShares(lines, discount));
    assert Stores(lines)[..|AllShares(lines, discount)|] == Stores(lines);
    forall s | s in Stores(lines) ensures m[s] == Allotment(lines, discount)(s) {
      var j :| 0 <= j < |Stores(lines)| && Stores(lines)[j] == s;
      ShareOfIndex(Stores(lines), AllShares(lines, discount), j);
    }
    SumEqual(Stores(lines), LookUp(m), Allotment(lines, discount));
    AllotmentsAddUp(lines, discount);
  }

  /** perStoreAllocated holds what a store's earlier lines took, for stores with lines to come. */
  ghost predicate TracksOpenStores(lines: seq<Line>, li: nat, taken: map<string, int>, priced: seq<PricedLine>)
  {
    forall j | li <= j < |lines| ::
      lines[j].store in taken && taken[lines[j].store] == GroupSum(priced, PricedStore(), lines[j].store, Discount())
  }

  lemma {:induction false} StillTracks(lines: seq<Line>, li: nat, taken: map<string, int>, priced: seq<PricedLine>,
                                       next: PricedLine)
    requires li < |lines| && TracksOpenStores(lines, li, taken, priced) && next.line == lines[li]
    ensures TracksOpenStores(lines, li + 1,
              if IsLastInStore(lines, li) then taken
             else taken[lines[li].store := taken[lines[li].store] + next.discount],
              priced + [next])
  {
    forall j | li < j < |lines|
      ensures GroupSum(priced + [next], PricedStore(), lines[j].store, Discount())
              == GroupSum(priced, PricedStore(), lines[j].store, Discount())
                 + if lines[j].store == lines[li].store then next.discount else 0
    {
      SumSnoc(priced, next, Only(PricedStore(), lines[j].store, Discount()));
    }
  }

  /** What the maps the loop reads must hold for it to price by a given split. */
  ghost predicate Serves(l: Line, split: Split, subtotals: map<string, int>, perStoreDiscount: map<string, int>)
  {
    && l.store in subtotals && l.store in perStoreDiscount
    && perStoreDiscount[l.store] == split.allotment(l.store)
    && split.portion(l) == if subtotals[l.store] > 0
                           then HalfUp(Pro(perStoreDiscount[l.store], l.lineTotal, subtotals[l.store])) else 0
  }

  /** The tax loop over lines: a discount per line and the total to pay. */
  method PriceLines(lines: seq<Line>, subtotals: map<string, int>, perStoreDiscount: map<string, int>,
                    ghost split: Split)
    returns (priced: seq<PricedLine>, customerTotal: int)
    requires forall l | l in lines :: Serves(l, split, subtotals, perStoreDiscount)
    ensures priced == Priced(lines, split, |lines|)
    ensures customerTotal == HalfUp(RealTotal(priced, Charged()))
  {
    var perStoreAllocated: map<string, int> := map s | s in perStoreDiscount :: 0;
    var charge := 0.0;
    priced := [];
    assert forall j | 0 <= j < |lines| :: Serves(lines[j], split, subtotals, perStoreDiscount);
    for li := 0 to |lines|
      invariant priced == Priced(lines, split, li)
      invariant charge == RealTotal(priced, Charged())
      invariant TracksOpenStores(lines, li, perStoreAllocated, priced)
    {
      var l := lines[li];
      assert Serves(l, split, subtotals, perStoreDiscount);
      var lineDiscount := LineDiscount(lines, li, subtotals[l.store], perStoreDiscount[l.store],
                                       perStoreAllocated[l.store], split, priced);
      var next := PricedLine(l, lineDiscount);
      StillTracks(lines, li, perStoreAllocated, priced, next);
      if !IsLastInStore(lines, li) {
        perStoreAllocated := perStoreAllocated[l.store := perStoreAllocated[l.store] + lineDiscount];
      }
      assert (priced + [next])[..li] == priced;
      priced := priced + [next];
      charge := charge + next.Charge();
    }
    customerTotal := HalfUp(charge);
  }

  /** The branches of the tax loop: remainder, proportional share, or nothing. */
  method LineDiscount(lines: seq<Line>, li: nat, storeSub: int, storeAllot: int, taken: int,
                      ghost split: Split, ghost priced: seq<PricedLine>) returns (lineDiscount: int)
    requires li < |lines|
    requires storeAllot == split.allotment(lines[li].store)
    requires split.portion(lines[li])
             == if storeSub > 0 then HalfUp(Pro(storeAllot, lines[li].lineTotal, storeSub)) else 0
    requires taken == GroupSum(priced, PricedStore(), lines[li].store, Discount())
    ensures lineDiscount == NextDiscount(lines, split, priced, li)
  {
    var isLastLineInStore := forall j | li < j < |lines| :: lines[j].store != lines[li].store;
    if isLastLineInStore {
      lineDiscount := storeAllot - taken;
    } else if storeSub > 0 {
      lineDiscount := HalfUp(Pro(storeAllot, lines[li].lineTotal, storeSub));
    } else {
      lineDiscount := 0;
    }
  }

  lemma {:induction false} MapsServe(lines: seq<Line>, discount: int, subtotals: map<string, int>,
                                     perStoreDiscount: map<string, int>)
    requires forall s | s in Stores(lines) ::
               s in subtotals && subtotals[s] == StoreSubtotal(lines, s)
               && s in perStoreDiscount && perStoreDiscount[s] == Allotment(lines, discount)(s)
    ensures forall l | l in lines :: Serves(l, CartSplit(lines, discount), subtotals, perStoreDiscount)
  {
    forall l | l in lines ensures Serves(l, CartSplit(lines, discount), subtotals, perStoreDiscount) {
      assert StoreOf()(l) in Stores(lines);
    }
  }

  /** The whole allocation: a share per store, a discount per line, and the total to pay. */
  method Apportion(lines: seq<Line>, discount: int)
    returns (perStoreDiscount: map<string, int>, priced: seq<PricedLine>, customerTotal: int)
    requires lines != []
    ensures forall s :: s in perStoreDiscount <==> s in Stores(lines)
    ensures forall s | s in Stores(lines) :: perStoreDiscount[s] == Allotment(lines, discount)(s)
    ensures Sum(Stores(lines), LookUp(perStoreDiscount)) == discount
    ensures priced == PricedCart(lines, discount)
    ensures customerTotal == CustomerTotal(lines, discount)
  {
    var subtotals := StoreSubtotals(lines);
    ghost var portion := RoundedShare(lines, discount);
    forall s | s in Stores(lines)
      ensures s in subtotals && portion(s) == HalfUp(Pro(discount, subtotals[s], Subtotal(lines)))
    {
      assert exists l | l in lines :: StoreOf()(l) == s;
    }
    perStoreDiscount := AllocateToStores(Stores(lines), discount, subtotals, Subtotal(lines), portion);
    SharesAreAllotments(lines, discount, perStoreDiscount);
    MapsServe(lines, discount, subtotals, perStoreDiscount);
    priced, customerTotal := PriceLines(lines, subtotals, perStoreDiscount, CartSplit(lines, discount));
  }

  // ---- the table over any operations ----------------------------------------------

  datatype TableOp =
    | CreateOp(code: string, row: CouponRow)
    | UpdateOp(code: string, input: CouponUpdate)
    | DeleteOp(code: string)

  function Applied(coupons: map<string, CouponRow>, op: TableOp): map<string, CouponRow>
  {
    match op
    case CreateOp(code, row) => if WellFormed(row) && code !in coupons then coupons[code := row] else coupons
    case UpdateOp(code, input) =>
      if code in coupons && !coupons[code].deleted && WellFormed(input.Over(coupons[code]))
      then coupons[code := input.Over(coupons[code])] else coupons
    case DeleteOp(code) =>
      if code in coupons then coupons[code := coupons[code].(deleted := true, isActive := false)] else coupons
  }

  function AllApplied(coupons: map<string, CouponRow>, ops: seq<TableOp>): map<string, CouponRow>
  {
    if ops == [] then coupons else Applied(AllApplied(coupons, ops[..|ops| - 1]), ops[|ops| - 1])
  }

  /** Over any later operations a deleted coupon keeps its row: its code is never used again,
      it is never updated, and no cart redeems it. */
  lemma {:induction false} DeletedForGood(coupons: map<string, CouponRow>, ops: seq<TableOp>, code: string)
    requires code in coupons && coupons[code].deleted && !coupons[code].isActive
    ensures var later := AllApplied(coupons, ops);
            && code in later && later[code] == coupons[code]
            && forall lines, now, totalUsed, usedByCustomer ::
                 !Redeemable(later[code], lines, now, totalUsed, usedByCustomer)
  {
    if ops != [] { DeletedForGood(coupons, ops[..|ops| - 1], code); }
  }

  /** Every row that operations can produce is well-formed. */
  lemma {:induction false} TableWellFormed(ops: seq<TableOp>)
    ensures forall code | code in AllApplied(map[], ops) :: WellFormed(AllApplied(map[], ops)[code])
  {
    if ops != [] { TableWellFormed(ops[..|ops| - 1]); }
  }

  ghost predicate Refuses(c: CouponRow, reason: Reason, lines: seq<Line>, now: int, totalUsed: nat,
                          usedByCustomer: nat)
  {
    match reason
    case Inactive => !c.isActive
    case NotActiveYet => now < c.validFrom
    case Expired => c.validUntil < now
    case OtherStore => c.storeId.Some? && c.storeId.value != "" && exists l | l in lines :: l.store != c.storeId.value
    case BelowMinimum => c.minimumPurchase.Some? && (Subtotal(lines) as real) < c.minimumPurchase.value
    case UsageLimitReached => c.usageLimit.Some? && 0 < c.usageLimit.value <= totalUsed
    case CustomerLimitReached => c.usageLimitPerUser.Some? && 0 < c.usageLimitPerUser.value <= usedByCustomer
    case Misconfigured => c.discountType.Unknown?
    case NoDiscount => !c.discountType.Unknown? && forall d: int | d > 0 :: !Promises(c, Subtotal(lines), d)
    case _ => false
  }

  lemma {:induction false} NothingPromised(c: CouponRow, s: int)
    requires RawDiscount(c, s).Some? && HalfUp(RawDiscount(c, s).value) <= 0
    ensures forall d: int | d > 0 :: !Promises(c, s, d)
  {
    assert s as real * c.discountValue == 100.0 * PercentOf(s, c.discountValue);
  }

  /** The prices before any discount: without tax, and with it, rounded once. */
  method PricesBefore(lines: seq<Line>) returns (subtotal: int, subtotalInclTax: int)
    ensures subtotal == Subtotal(lines) && subtotal >= 0
    ensures subtotalInclTax == HalfUp(RealTotal(lines, InclTax()))
  {
    subtotal := 0;
    var inclTax := 0.0;
    for i := 0 to |lines|
      invariant subtotal == Subtotal(lines[..i]) && inclTax == RealTotal(lines[..i], InclTax())
    {
      SumPrefix(lines, i, Total());
      RealTotalPrefix(lines, i, InclTax());
      subtotal := subtotal + lines[i].lineTotal;
      inclTax := inclTax + lines[i].lineTotal as real * (1.0 + lines[i].taxRate / 100.0);
    }
    assert lines[..|lines|] == lines;
    SubtotalNonNegative(lines);
    subtotalInclTax := HalfUp(inclTax);
  }

  /** At one tax rate, the price with tax. */
  lemma {:induction false} PriceAtOneRate(lines: seq<Line>, rate: real)
    requires forall l | l in lines :: l.taxRate == rate
    ensures RealTotal(lines, InclTax()) == WithGst(Subtotal(lines) as real, rate)
  {
    RealTotalScaled(lines, InclTax(), Total(), 1.0 + rate / 100.0);
  }

  /** What a rejection tells the customer is so, and of an acceptance none of it is. */
  ghost predicate Explains(reason: Reason, code: string, coupons: map<string, CouponRow>, lines: seq<Line>, now: int,
                           totalUsed: nat, usedByCustomer: nat)
  {
    match reason
    case NoCode => code == ""
    case EmptyCart => lines == []
    case UnknownCode => code in coupons ==> coupons[code].deleted
    case _ => code in coupons && Refuses(coupons[code], reason, lines, now, totalUsed, usedByCustomer)
  }

  lemma {:induction false} NothingToExplain(code: string, coupons: map<string, CouponRow>, lines: seq<Line>, now: int,
                                            totalUsed: nat, usedByCustomer: nat)
    requires code != "" && lines != [] && code in coupons
    requires Redeemable(coupons[code], lines, now, totalUsed, usedByCustomer)
    ensures forall reason :: !Explains(reason, code, coupons, lines, now, totalUsed, usedByCustomer)
  {
    var c := coupons[code];
    DiscountAsPromised(c, Subtotal(lines));
    SubtotalNonNegative(lines);
  }

  class CouponTable {
    var coupons: map<string, CouponRow>

    ghost predicate Valid()
      reads this
    {
      forall code | code in coupons :: WellFormed(coupons[code])
    }

    constructor ()
      ensures Valid() && coupons == map[]
    {
      coupons := map[];
    }

    /** Refuses an empty validity window, a percentage above 100, and a code in use. */
    method Create(code: string, c: CouponRow) returns (created: bool)
      requires Valid()
      modifies this
      ensures Valid()
      ensures created <==> WellFormed(c) && code !in old(coupons)
      ensures coupons == Applied(old(coupons), CreateOp(code, c))
    {
      created := false;
      if c.validUntil <= c.validFrom { return; }
      if c.discountType.Percentage? && c.discountValue > 100.0 { return; }
      if code in coupons { return; }
      coupons := coupons[code := c];
      created := true;
    }

    /** Checks the merged row, so changing only the type or only the value is caught too. */
    method Update(code: string, input: CouponUpdate) returns (updated: bool)
      requires Valid()
      modifies this
      ensures Valid()
      ensures updated <==> code in old(coupons) && !old(coupons)[code].deleted
                           && WellFormed(input.Over(old(coupons)[code]))
      ensures coupons == Applied(old(coupons), UpdateOp(code, input))
    {
      updated := false;
      if code !in coupons || coupons[code].deleted { return; }
      var existing := coupons[code];
      if input.validUntil.Or(existing.validUntil) <= input.validFrom.Or(existing.validFrom) { return; }
      var merged := input.Over(existing);
      if merged.discountType.Percentage? && merged.discountValue > 100.0 { return; }
      coupons := coupons[code := merged];
      updated := true;
    }

    method SoftDelete(code: string) returns (deleted: bool)
      requires Valid()
      modifies this
      ensures Valid()
      ensures deleted <==> code in old(coupons)
      ensures coupons == Applied(old(coupons), DeleteOp(code))
      ensures deleted ==> coupons[code].deleted && !coupons[code].isActive
    {
      deleted := code in coupons;
      if deleted {
        coupons := coupons[code := coupons[code].(deleted := true, isActive := false)];
      }
    }

    /** Accepts exactly the redeemable coupons; an accepted one discounts between one paisa
        and the whole subtotal and splits it completely over the stores; a rejected one leaves
        the price alone. */
    method ValidateAndCompute(code: string, lines: seq<Line>, now: int, totalUsed: nat, usedByCustomer: nat)
      returns (result: Outcome)
      requires Valid()
      ensures result.Accepted? <==>
                code != "" && lines != [] && code in coupons
                && Redeemable(coupons[code], lines, now, totalUsed, usedByCustomer)
      ensures result.Accepted? ==>
                && 0 < result.discountAmount <= result.subtotal == Subtotal(lines)
                && result.discountAmount == HalfUp(RawDiscount(coupons[code], Subtotal(lines)).value)
                && Promises(coupons[code], Subtotal(lines), result.discountAmount)
                && (forall s :: s in result.perStoreDiscount <==> s in Stores(lines))
                && (forall s | s in Stores(lines) ::
                      result.perStoreDiscount[s] == Allotment(lines, result.discountAmount)(s))
                && Sum(Stores(lines), LookUp(result.perStoreDiscount)) == result.discountAmount
                && result.customerTotal == CustomerTotal(lines, result.discountAmount)
                && result.discountInclTax == result.subtotalInclTax - result.customerTotal
      ensures result.subtotal == Subtotal(lines) && result.subtotalInclTax == HalfUp(RealTotal(lines, InclTax()))
      ensures result.Accepted? ==>
                forall reason :: !Explains(reason, code, coupons, lines, now, totalUsed, usedByCustomer)
      ensures result.Rejected? ==>
                && result.customerTotal == result.subtotalInclTax
                && Explains(result.reason, code, coupons, lines, now, totalUsed, usedByCustomer)
    {
      var subtotal, subtotalInclTax := PricesBefore(lines);
      if code == "" { return Rejected(NoCode, subtotal, subtotalInclTax, subtotalInclTax); }
      if |lines| == 0 { return Rejected(EmptyCart, 0, 0, 0); }
      if code !in coupons || coupons[code].deleted {
        return Rejected(UnknownCode, subtotal, subtotalInclTax, subtotalInclTax);
      }
      var c := coupons[code];
      if !c.isActive { return Rejected(Inactive, subtotal, subtotalInclTax, subtotalInclTax); }
      if c.validFrom > now { return Rejected(NotActiveYet, subtotal, subtotalInclTax, subtotalInclTax); }
      if c.validUntil < now { return Rejected(Expired, subtotal, subtotalInclTax, subtotalInclTax); }
      if c.storeId.Some? && c.storeId.value != "" && exists l | l in lines :: l.store != c.storeId.value {
        return Rejected(OtherStore, subtotal, subtotalInclTax, subtotalInclTax);
      }
      var minPurchase := c.minimumPurchase.Or(0.0);
      if minPurchase > 0.0 && (subtotal as real) < minPurchase {
        return Rejected(BelowMinimum, subtotal, subtotalInclTax, subtotalInclTax);
      }
      if c.usageLimit.Some? && c.usageLimit.value > 0 && totalUsed >= c.usageLimit.value {
        return Rejected(UsageLimitReached, subtotal, subtotalInclTax, subtotalInclTax);
      }
      if c.usageLimitPerUser.Some? && c.usageLimitPerUser.value > 0 && usedByCustomer >= c.usageLimitPerUser.value {
        return Rejected(CustomerLimitReached, subtotal, subtotalInclTax, subtotalInclTax);
      }
      var raw := RawDiscount(c, subtotal);
      if raw.None? { return Rejected(Misconfigured, subtotal, subtotalInclTax, subtotalInclTax); }
      var discountAmount := HalfUp(raw.value);
      if discountAmount <= 0 {
        NothingPromised(c, subtotal);
        return Rejected(NoDiscount, subtotal, subtotalInclTax, subtotalInclTax);
      }
      DiscountWithinSubtotal(c, subtotal);
      DiscountAsPromised(c, subtotal);
      NothingToExplain(code, coupons, lines, now, totalUsed, usedByCustomer);
      var perStoreDiscount, priced, customerTotal := Apportion(lines, discountAmount);
      result := Accepted(discountAmount, subtotal, subtotalInclTax, subtotalInclTax - customerTotal, customerTotal,
                         perStoreDiscount);
    }
  }
}
