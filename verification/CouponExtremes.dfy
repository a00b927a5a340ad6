/** How far the rounding of a coupon can go: when a store's share is negative, and carts on
    which the bound on what the floor at zero gives back is reached. */
module CouponExtremes {
  import opened Rounding
  import opened Sums
  import opened Coupon
  import opened CouponProofs

  // ---- negative shares ----------------------------------------------------------

  /** A share is negative exactly when it is the last store's and the rounded shares of the
      other stores already exceed the discount. */
  lemma {:induction false} NegativeShare(lines: seq<Line>, discount: nat, i: nat)
    requires i < |Stores(lines)| && Subtotal(lines) > 0
    ensures AllShares(lines, discount)[i] < 0 <==>
              i + 1 == |Stores(lines)| && Sum(StoreShares(lines, discount, i), Identity()) > discount
  {
    var stores, portion := Stores(lines), RoundedShare(lines, discount);
    ShareIndex(stores, portion, discount, |stores|, i);
    if i + 1 < |stores| {
      StoreSubtotalBounds(lines, stores[i]);
      ProNonNegative(discount, StoreSubtotal(lines, stores[i]), Subtotal(lines));
      HalfUpWithin(Pro(discount, StoreSubtotal(lines, stores[i]), Subtotal(lines)), 0);
    }
  }

  lemma {:induction false} ProNonNegative(amount: nat, weight: nat, whole: nat)
    ensures Pro(amount, weight, whole) >= 0.0
  {
    if whole > 0 {
      QuotientNonNegative(weight as real, whole as real);
      ProductNonNegative(amount as real, weight as real / whole as real);
    }
  }

  lemma {:induction false} QuotientNonNegative(x: real, y: real)
    requires x >= 0.0 && y > 0.0
    ensures x / y >= 0.0
  {
  }

  lemma {:induction false} ProductNonNegative(x: real, y: real)
    requires x >= 0.0 && y >= 0.0
    ensures x * y >= 0.0
  {
  }

  /** No share is negative when the last of n stores is due at least (n - 1)/2 paise. */
  lemma {:induction false} NoNegativeShare(lines: seq<Line>, discount: nat)
    requires lines != [] && Subtotal(lines) > 0
    requires var n := |Stores(lines)|;
             n > 0 ==>
               Pro(discount, StoreSubtotal(lines, Stores(lines)[n - 1]), Subtotal(lines)) >= (n - 1) as real / 2.0
    ensures forall i | 0 <= i < |Stores(lines)| :: AllShares(lines, discount)[i] >= 0
  {
    forall i | 0 <= i < |Stores(lines)| ensures AllShares(lines, discount)[i] >= 0 {
      NegativeShare(lines, discount, i);
      ShareNearProportion(lines, discount, i);
    }
  }

  function FourStores(): seq<Line>
  {
    [Line("a", 100, 0.0), Line("b", 100, 0.0), Line("c", 100, 0.0), Line("d", 100, 0.0)]
  }

  /** Two paise over four equal stores: three stores get a paisa each, the last owes one. */
  lemma {:induction false} FourStoresShares()
    ensures Stores(FourStores()) == ["a", "b", "c", "d"] && AllShares(FourStores(), 2) == [1, 1, 1, -1]
  {
    FourStoresKeys();
    FourStoresSums();
    var lines, stores := FourStores(), ["a", "b", "c", "d"];
    var portion := RoundedShare(lines, 2);
    assert Pro(2, 100, 400) == 0.5 && HalfUp(0.5) == 1;
    assert portion("a") == 1 && portion("b") == 1 && portion("c") == 1;
    assert Shares(stores, portion, 2, 0) == [];
    assert Shares(stores, portion, 2, 1) == [1];
    assert Shares(stores, portion, 2, 2) == [1, 1];
    assert Shares(stores, portion, 2, 3) == [1, 1, 1];
    assert [1, 1, 1][..2] == [1, 1] && [1, 1][..1] == [1] && [1][..0] == [];
    assert Sum([1], Identity()) == 1 && Sum([1, 1], Identity()) == 2 && Sum([1, 1, 1], Identity()) == 3;
  }

  lemma {:induction false} FourStoresKeys()
    ensures Stores(FourStores()) == ["a", "b", "c", "d"]
  {
    var l := FourStores();
    assert l[..3] == [l[0], l[1], l[2]] && l[..3][..2] == [l[0], l[1]] && l[..3][..2][..1] == [l[0]];
    assert l[..3][..2][..1][..0] == [];
    assert "a"[0] != "b"[0] && "a"[0] != "c"[0] && "a"[0] != "d"[0];
    assert "b"[0] != "c"[0] && "b"[0] != "d"[0] && "c"[0] != "d"[0];
    assert KeysOf(l[..3][..2][..1], StoreOf()) == ["a"];
    assert KeysOf(l[..3][..2], StoreOf()) == ["a", "b"];
    assert KeysOf(l[..3], StoreOf()) == ["a", "b", "c"];
  }

  lemma {:induction false} FourStoresSums()
    ensures Subtotal(FourStores()) == 400
    ensures forall s | s in ["a", "b", "c"] :: StoreSubtotal(FourStores(), s) == 100
  {
    SumOfFour(FourStores(), Total());
    forall s | s in ["a", "b", "c"] ensures StoreSubtotal(FourStores(), s) == 100 {
      SumOfFour(FourStores(), Only(StoreOf(), s, Total()));
      assert "a"[0] != "b"[0] && "a"[0] != "c"[0] && "a"[0] != "d"[0];
      assert "b"[0] != "c"[0] && "b"[0] != "d"[0] && "c"[0] != "d"[0];
    }
  }

  lemma {:induction false} SumOfFour<T>(xs: seq<T>, f: T -> int)
    requires |xs| == 4
    ensures Sum(xs, f) == f(xs[0]) + f(xs[1]) + f(xs[2]) + f(xs[3])
  {
    SumPrefix(xs, 0, f);
    SumPrefix(xs, 1, f);
    SumPrefix(xs, 2, f);
    SumPrefix(xs, 3, f);
    assert xs[..4] == xs && xs[..0] == [];
  }

  // ---- the bound on the excess ----------------------------------------------------

  /** One store with 2m - 1 lines of a paisa each and a free one at the end. */
  function PaisaCart(m: nat): seq<Line>
    requires m > 0
  {
    seq(2 * m - 1, i => Line("s", 1, 0.0)) + [Line("s", 0, 0.0)]
  }

  lemma {:induction false} SumOfOnes(lines: seq<Line>, f: Line -> int)
    requires forall l | l in lines :: f(l) == 1
    ensures Sum(lines, f) == |lines|
  {
    if lines != [] {
      assert lines[|lines| - 1] in lines;
      SumOfOnes(lines[..|lines| - 1], f);
    }
  }

  lemma {:induction false} PaisaCartSums(m: nat)
    requires m > 0
    ensures Subtotal(PaisaCart(m)) == 2 * m - 1 && StoreSubtotal(PaisaCart(m), "s") == 2 * m - 1
    ensures Stores(PaisaCart(m)) == ["s"]
  {
    var ones, free := PaisaCart(m)[..2 * m - 1], Line("s", 0, 0.0);
    assert PaisaCart(m) == ones + [free];
    SumOfOnes(ones, Total());
    SumOfOnes(ones, Only(StoreOf(), "s", Total()));
    SumSnoc(ones, free, Total());
    SumSnoc(ones, free, Only(StoreOf(), "s", Total()));
    assert free in PaisaCart(m);
    OneStore(PaisaCart(m), "s");
  }

  lemma {:induction false} OneStore(lines: seq<Line>, s: string)
    requires lines != [] && forall l | l in lines :: l.store == s
    ensures Stores(lines) == [s]
  {
    var stores := Stores(lines);
    assert StoreOf()(lines[0]) == s && lines[0] in lines;
    assert s in stores && forall k | k in stores :: k == s;
    AnotherKey(stores, s);
  }

  lemma {:induction false} AnotherKey<K>(keys: seq<K>, s: K)
    requires Distinct(keys)
    ensures |keys| > 1 ==> exists k :: k in keys && k != s
  {
    if |keys| > 1 {
      if keys[0] == s {
        assert keys[1] in keys && keys[1] != s;
      } else {
        assert keys[0] in keys;
      }
    }
  }

  lemma {:induction false} SmallPortion(m: nat)
    requires m > 0
    ensures HalfUp(Pro(m - 1, 1, 2 * m - 1)) == 0
  {
    var x, w := (m - 1) as real, (2 * m - 1) as real;
    var q := 1.0 / w;
    assert q * w == 1.0;
    assert q > 0.0;
    assert x * q * w == x;
    assert x == (w - 1.0) / 2.0;
    assert (x * q - 0.5) * w == -0.5;
    BelowHalf(x * q, w);
    ProductNonNegative(x, q);
  }

  lemma {:induction false} BelowHalf(y: real, w: real)
    requires w > 0.0 && (y - 0.5) * w == -0.5
    ensures y < 0.5
  {
    if y >= 0.5 { ProductNonNegative(y - 0.5, w); }
  }

  /** A discount of m - 1 paise on it: every line but the last rounds to nothing, the free one
      takes it all. So for every even number of lines the excess bound is reached. */
  lemma {:induction false} ExcessBoundReached(m: nat)
    requires m > 0
    ensures |PaisaCart(m)| == 2 * m
    ensures Sum(PricedCart(PaisaCart(m), m - 1), Excess()) == m - 1 == (|PaisaCart(m)| - 1) / 2
  {
    var lines, discount, k := PaisaCart(m), m - 1, 2 * m - 1;
    var cart := PricedCart(lines, discount);
    PaisaCartSums(m);
    PaisaLines(m);
    SumZero(cart[..k], Discount());
    SumZero(cart[..k], Excess());
    SumPrefix(cart, k, Discount());
    SumPrefix(cart, k, Excess());
    assert cart[..k + 1] == cart;
    ExcessIsBounded(lines, discount);
    LineAt(lines, CartSplit(lines, discount), |lines|, k);
  }

  lemma {:induction false} PaisaLines(m: nat)
    requires m > 0
    ensures forall p | p in PricedCart(PaisaCart(m), m - 1)[..2 * m - 1] :: p.discount == 0 && p.line.lineTotal == 1
  {
    var lines, k := PaisaCart(m), 2 * m - 1;
    var split := CartSplit(lines, m - 1);
    var cart := PricedCart(lines, m - 1);
    PaisaCartSums(m);
    SmallPortion(m);
    StoreShare(m);
    forall j | 0 <= j < k ensures cart[j].discount == 0 && cart[j].line.lineTotal == 1 {
      LineAt(lines, split, |lines|, j);
      assert lines[k].store == lines[j].store;
    }
  }

  lemma {:induction false} StoreShare(m: nat)
    requires m > 0
    ensures Allotment(PaisaCart(m), m - 1)("s") == m - 1
  {
    PaisaCartSums(m);
    AllotmentsAddUp(PaisaCart(m), m - 1);
    assert ["s"][..0] == [];
  }
}
