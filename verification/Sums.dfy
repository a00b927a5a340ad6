/** Finite sums over sequences, as SQL aggregates and reduce loops compute them, and
    the law that grouping by a key conserves the total. */
module Sums {

  function Sum<T>(xs: seq<T>, f: T -> int): int
  {
    if xs == [] then 0 else Sum(xs[..|xs| - 1], f) + f(xs[|xs| - 1])
  }

  lemma {:induction false} SumSnoc<T>(xs: seq<T>, x: T, f: T -> int)
    ensures Sum(xs + [x], f) == Sum(xs, f) + f(x)
  {
    assert (xs + [x])[..|xs|] == xs;
  }

  lemma {:induction false} SumPrefix<T>(xs: seq<T>, i: nat, f: T -> int)
    requires i < |xs|
    ensures Sum(xs[..i + 1], f) == Sum(xs[..i], f) + f(xs[i])
  {
    assert xs[..i + 1] == xs[..i] + [xs[i]];
    SumSnoc(xs[..i], xs[i], f);
  }

  lemma {:induction false} SumConcat<T>(xs: seq<T>, ys: seq<T>, f: T -> int)
    ensures Sum(xs + ys, f) == Sum(xs, f) + Sum(ys, f)
  {
    if ys == [] {
      assert xs + ys == xs;
    } else {
      var rest := ys[..|ys| - 1];
      assert xs + ys == (xs + rest) + [ys[|ys| - 1]];
      SumSnoc(xs + rest, ys[|ys| - 1], f);
      SumConcat(xs, rest, f);
    }
  }

  /** Summation is linear: when h is pointwise f + g, so are the totals. */
  lemma {:induction false} SumAdds<T>(xs: seq<T>, f: T -> int, g: T -> int, h: T -> int)
    requires forall x | x in xs :: h(x) == f(x) + g(x)
    ensures Sum(xs, h) == Sum(xs, f) + Sum(xs, g)
  {
    if xs != [] {
      assert xs[|xs| - 1] in xs;
      SumAdds(xs[..|xs| - 1], f, g, h);
    }
  }

  lemma {:induction false} SumEqual<T>(xs: seq<T>, f: T -> int, g: T -> int)
    requires forall x | x in xs :: f(x) == g(x)
    ensures Sum(xs, f) == Sum(xs, g)
  {
    if xs != [] {
      assert xs[|xs| - 1] in xs;
      SumEqual(xs[..|xs| - 1], f, g);
    }
  }

  lemma {:induction false} SumZero<T>(xs: seq<T>, f: T -> int)
    requires forall x | x in xs :: f(x) == 0
    ensures Sum(xs, f) == 0
  {
    if xs != [] {
      assert xs[|xs| - 1] in xs;
      SumZero(xs[..|xs| - 1], f);
    }
  }

  lemma {:induction false} SumAtMost<T>(xs: seq<T>, f: T -> int, g: T -> int)
    requires forall x | x in xs :: f(x) <= g(x)
    ensures Sum(xs, f) <= Sum(xs, g)
  {
    if xs != [] {
      assert xs[|xs| - 1] in xs;
      SumAtMost(xs[..|xs| - 1], f, g);
    }
  }

  // ---- grouping -------------------------------------------------------------

  ghost predicate Distinct<T>(xs: seq<T>)
  {
    forall i, j | 0 <= i < j < |xs| :: xs[i] != xs[j]
  }

  /** The distinct keys in order of first appearance, as a Map's keys() lists them. */
  function KeysOf<T(!new), K(==, !new)>(xs: seq<T>, key: T -> K): (keys: seq<K>)
    ensures Distinct(keys)
    ensures forall k :: k in keys <==> exists x | x in xs :: key(x) == k
  {
    if xs == [] then []
    else
      var last := xs[|xs| - 1];
      var init := xs[..|xs| - 1];
      assert xs == init + [last];
      var before := KeysOf(init, key);
      if key(last) in before then before else before + [key(last)]
  }

  /** f restricted to the elements whose key is k. */
  function Only<T, K(==)>(key: T -> K, k: K, f: T -> int): T -> int
  {
    x => if key(x) == k then f(x) else 0
  }

  /** SUM(f) ... GROUP BY key, for the group k. */
  function GroupSum<T, K(==)>(xs: seq<T>, key: T -> K, k: K, f: T -> int): int
  {
    Sum(xs, Only(key, k, f))
  }

  function PerGroup<T, K(==)>(xs: seq<T>, key: T -> K, f: T -> int): K -> int
  {
    k => GroupSum(xs, key, k, f)
  }

  function Point<K(==)>(k: K, v: int): K -> int
  {
    j => if j == k then v else 0
  }

  lemma {:induction false} SumPoint<K>(keys: seq<K>, k: K, v: int)
    requires Distinct(keys)
    ensures Sum(keys, Point(k, v)) == if k in keys then v else 0
  {
    if keys != [] {
      var init := keys[..|keys| - 1];
      assert keys == init + [keys[|keys| - 1]];
      SumPoint(init, k, v);
    }
  }

  /** Grouping conserves: over any distinct keys that cover the rows, the group sums
      add up to the ungrouped sum. */
  lemma {:induction false} GroupsAddUp<T, K>(xs: seq<T>, keys: seq<K>, key: T -> K, f: T -> int)
    requires Distinct(keys)
    requires forall x | x in xs :: key(x) in keys
    ensures Sum(keys, PerGroup(xs, key, f)) == Sum(xs, f)
  {
    if xs == [] {
      SumZero(keys, PerGroup(xs, key, f));
    } else {
      var last := xs[|xs| - 1];
      var init := xs[..|xs| - 1];
      assert last in xs;
      GroupsAddUp(init, keys, key, f);
      SumPoint(keys, key(last), f(last));
      SumAdds(keys, PerGroup(init, key, f), Point(key(last), f(last)), PerGroup(xs, key, f));
    }
  }

  // ---- exact sums ---------------------------------------------------------------

  function RealTotal<T>(xs: seq<T>, f: T -> real): real
  {
    if xs == [] then 0.0 else RealTotal(xs[..|xs| - 1], f) + f(xs[|xs| - 1])
  }

  lemma {:induction false} RealTotalPrefix<T>(xs: seq<T>, i: nat, f: T -> real)
    requires i < |xs|
    ensures RealTotal(xs[..i + 1], f) == RealTotal(xs[..i], f) + f(xs[i])
  {
    assert xs[..i + 1][..i] == xs[..i];
  }

  /** A constant factor moves out of an exact sum. */
  lemma {:induction false} RealTotalScaled<T>(xs: seq<T>, f: T -> real, g: T -> int, factor: real)
    requires forall x | x in xs :: f(x) == g(x) as real * factor
    ensures RealTotal(xs, f) == Sum(xs, g) as real * factor
  {
    if xs != [] {
      assert xs[|xs| - 1] in xs;
      RealTotalScaled(xs[..|xs| - 1], f, g, factor);
    }
  }
}
