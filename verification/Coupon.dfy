/** How a coupon discount is split over stores and then over cart lines, in whole paise. */
module Coupon {
  import opened Rounding
  import opened Sums

  /** lineTotal is the pre-tax base; taxRate is a percentage. */
  datatype Line = Line(store: string, lineTotal: nat, taxRate: real)

  datatype PricedLine = PricedLine(line: Line, discount: int)
  {
    /** The discounted base the customer is charged: never below zero. */
    function Net(): int { if line.lineTotal < discount then 0 else line.lineTotal - discount }

    function Charge(): real { Net() as real + Net() as real * line.taxRate / 100.0 }
  }

  function StoreOf(): Line -> string { (l: Line) => l.store }

  function Total(): Line -> int { (l: Line) => l.lineTotal }

  function InclTax(): Line -> real { (l: Line) => l.lineTotal as real * (1.0 + l.taxRate / 100.0) }

  function Subtotal(lines: seq<Line>): int
  {
    Sum(lines, Total())
  }

  function Stores(lines: seq<Line>): seq<string>
  {
    KeysOf(lines, StoreOf())
  }

  function StoreSubtotal(lines: seq<Line>, store: string): int
  {
    GroupSum(lines, StoreOf(), store, Total())
  }

  // ---- stores -------------------------------------------------------------------

  function Identity(): int -> int { (n: int) => n }

  /** part of amount in proportion weight : whole, exactly. */
  function Pro(amount: int, weight: int, whole: int): real
  {
    if whole == 0 then 0.0 else amount as real * (weight as real / whole as real)
  }

  /** A store's proportional share of the discount, rounded to the paisa. */
  function RoundedShare(lines: seq<Line>, discount: int): string -> int
  {
    (store: string) => HalfUp(Pro(discount, StoreSubtotal(lines, store), Subtotal(lines)))
  }

  /** Shares of a total over keys: each takes its portion, the last what the others left. */
  function Shares(keys: seq<string>, portion: string -> int, total: int, k: nat): (shares: seq<int>)
    requires k <= |keys|
    ensures |shares| == k
  {
    if k == 0 then []
    else
      var before := Shares(keys, portion, total, k - 1);
      before + [if k == |keys| then total - Sum(before, Identity()) else portion(keys[k - 1])]
  }

  /** The first k stores' shares. */
  function StoreShares(lines: seq<Line>, discount: int, k: nat): (shares: seq<int>)
    requires k <= |Stores(lines)|
    ensures |shares| == k
  {
    Shares(Stores(lines), RoundedShare(lines, discount), discount, k)
  }

  function AllShares(lines: seq<Line>, discount: int): seq<int>
  {
    StoreShares(lines, discount, |Stores(lines)|)
  }

  /** perStoreDiscount.get(store) ?? 0 */
  function ShareOf(stores: seq<string>, shares: seq<int>, store: string): int
    requires |stores| == |shares|
  {
    if stores == [] then 0
    else if stores[|stores| - 1] == store then shares[|shares| - 1]
    else ShareOf(stores[..|stores| - 1], shares[..|shares| - 1], store)
  }

  function Allotment(lines: seq<Line>, discount: int): string -> int
  {
    (store: string) => ShareOf(Stores(lines), AllShares(lines, discount), store)
  }

  // ---- lines --------------------------------------------------------------------

  predicate IsLastInStore(lines: seq<Line>, li: nat)
    requires li < |lines|
  {
    forall j | li < j < |lines| :: lines[j].store != lines[li].store
  }

  function PricedStore(): PricedLine -> string { (p: PricedLine) => p.line.store }

  function Discount(): PricedLine -> int { (p: PricedLine) => p.discount }

  /** How a store's discount reaches its lines: what the store takes in all, and the
      rounded portion of a line that is not its last. */
  datatype Split = Split(allotment: string -> int, portion: Line -> int)

  function Proportional(lines: seq<Line>, allotment: string -> int): Line -> int
  {
    (l: Line) => if StoreSubtotal(lines, l.store) > 0
                 then HalfUp(Pro(allotment(l.store), l.lineTotal, StoreSubtotal(lines, l.store)))
                 else 0
  }

  function NextDiscount(lines: seq<Line>, split: Split, done: seq<PricedLine>, li: nat): int
    requires li < |lines|
  {
    if IsLastInStore(lines, li)
    then split.allotment(lines[li].store) - GroupSum(done, PricedStore(), lines[li].store, Discount())
    else split.portion(lines[li])
  }

  function Priced(lines: seq<Line>, split: Split, upTo: nat): (priced: seq<PricedLine>)
    requires upTo <= |lines|
    ensures |priced| == upTo
  {
    if upTo == 0 then []
    else
      var done := Priced(lines, split, upTo - 1);
      done + [PricedLine(lines[upTo - 1], NextDiscount(lines, split, done, upTo - 1))]
  }

  function CartSplit(lines: seq<Line>, discount: int): Split
  {
    Split(Allotment(lines, discount), Proportional(lines, Allotment(lines, discount)))
  }

  function PricedCart(lines: seq<Line>, discount: int): seq<PricedLine>
  {
    Priced(lines, CartSplit(lines, discount), |lines|)
  }

  function Charged(): PricedLine -> real { (p: PricedLine) => p.Charge() }

  function NetOf(): PricedLine -> int { (p: PricedLine) => p.Net() }

  function CustomerTotal(lines: seq<Line>, discount: int): int
  {
    HalfUp(RealTotal(PricedCart(lines, discount), Charged()))
  }
}
