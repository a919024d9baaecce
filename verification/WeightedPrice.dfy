/** Volume-weighted sums of fills, and the fact that a weighted mean lies between
    the extremes of what it averages. */
module WeightedPrice {
  import opened RealAlgebra

  datatype Fill = Fill(price: real, quantity: real)

  function Notional(f: Fill): real { f.price * f.quantity }

  function SumPv(fills: seq<Fill>): real {
    if fills == [] then 0.0
    else SumPv(fills[..|fills| - 1]) + Notional(fills[|fills| - 1])
  }

  function SumQuantity(fills: seq<Fill>): real {
    if fills == [] then 0.0
    else SumQuantity(fills[..|fills| - 1]) + fills[|fills| - 1].quantity
  }

  lemma {:induction false} SumsAppend(a: seq<Fill>, b: seq<Fill>)
    ensures SumPv(a + b) == SumPv(a) + SumPv(b)
    ensures SumQuantity(a + b) == SumQuantity(a) + SumQuantity(b)
    decreases |b|
  {
    hide Notional;
    if b == [] {
      assert a + b == a;
    } else {
      SumsAppend(a, b[..|b| - 1]);
      assert (a + b)[..|a + b| - 1] == a + b[..|b| - 1];
    }
  }

  lemma SumsOfOne(f: Fill)
    ensures SumPv([f]) == f.price * f.quantity && SumQuantity([f]) == f.quantity
  {
    assert [f][..0] == [];
  }

  ghost predicate PricesWithin(fills: seq<Fill>, lo: real, hi: real) {
    forall i :: 0 <= i < |fills| ==> fills[i].quantity >= 0.0 && lo <= fills[i].price <= hi
  }

  lemma {:induction false} WeightedSumBounds(fills: seq<Fill>, lo: real, hi: real)
    requires PricesWithin(fills, lo, hi)
    ensures SumQuantity(fills) >= 0.0
    ensures lo * SumQuantity(fills) <= SumPv(fills) <= hi * SumQuantity(fills)
  {
    if fills != [] {
      var init, f := fills[..|fills| - 1], fills[|fills| - 1];
      WeightedSumBounds(init, lo, hi);
      WeightStep(lo, f.price, hi, f.quantity, SumQuantity(init), SumPv(init));
    }
  }

  lemma WeightStep(lo: real, p: real, hi: real, q: real, s: real, t: real)
    requires q >= 0.0 && lo <= p <= hi && lo * s <= t <= hi * s
    ensures lo * (s + q) <= t + p * q <= hi * (s + q)
  {
    ScaleLe(q, lo, p);
    ScaleLe(q, p, hi);
    assert lo * (s + q) == lo * s + lo * q && hi * (s + q) == hi * s + hi * q;
  }

  /** The volume-weighted price lies between the lowest and the highest price. */
  lemma WeightedMeanBetween(fills: seq<Fill>, lo: real, hi: real)
    requires PricesWithin(fills, lo, hi) && SumQuantity(fills) > 0.0
    ensures lo <= SumPv(fills) / SumQuantity(fills) <= hi
  {
    WeightedSumBounds(fills, lo, hi);
    QuotientBetween(SumPv(fills), SumQuantity(fills), lo, hi);
  }

  lemma QuotientBetween(a: real, b: real, lo: real, hi: real)
    requires b > 0.0 && lo * b <= a <= hi * b
    ensures lo <= a / b <= hi
  {
    var q := a / b;
    QuotientTimes(a, b);
    if q < lo { ScaleLt(b, q, lo); }
    if hi < q { ScaleLt(b, hi, q); }
  }
}
