/** The engine's two exponentially decayed readouts: buy and sell flow, and the
    latency peak. */
module Decay {
  import opened RealMath
  import opened Vacuum

  const FLOW_DECAY := 0.999
  const LATENCY_DECAY := 0.995

  function Pow(base: real, n: nat): real {
    if n == 0 then 1.0 else base * Pow(base, n - 1)
  }

  /** An entry `age` steps old. */
  function Aged(base: real, x: real, age: nat): real {
    Pow(base, age) * x
  }

  lemma AgedStep(base: real, x: real, age: nat)
    ensures Aged(base, x, 0) == x
    ensures Aged(base, x, age + 1) == base * Aged(base, x, age)
  {
    assert Pow(base, 0) * x == x;
    assert base * (Pow(base, age) * x) == (base * Pow(base, age)) * x;
  }

  /** Sum of the aged entries, the last entry having age `age`. */
  function Discounted(base: real, xs: seq<real>, age: nat): real
    decreases |xs|
  {
    if xs == [] then 0.0
    else Discounted(base, xs[..|xs| - 1], age + 1) + Aged(base, xs[|xs| - 1], age)
  }

  lemma {:induction false} DiscountedAges(base: real, xs: seq<real>, age: nat)
    ensures Discounted(base, xs, age + 1) == base * Discounted(base, xs, age)
    decreases |xs|
  {
    hide Aged, Pow;
    if xs != [] {
      DiscountedAges(base, xs[..|xs| - 1], age + 1);
      AgedStep(base, xs[|xs| - 1], age);
    }
  }

  // ------------------------------------------------------------- flow

  datatype Hit = Hit(side: Side, notional: real)

  datatype Flow = Flow(inflow: real, outflow: real) {
    function OnTrade(h: Hit): Flow {
      Flow(inflow * FLOW_DECAY + (if h.side.Buy? then h.notional else 0.0),
           outflow * FLOW_DECAY + (if h.side.Buy? then 0.0 else h.notional))
    }
  }

  function After(hits: seq<Hit>): Flow {
    if hits == [] then Flow(0.0, 0.0) else After(hits[..|hits| - 1]).OnTrade(hits[|hits| - 1])
  }

  /** The notionals of one side, with 0 in the other side's places. */
  function NotionalsOf(hits: seq<Hit>, side: Side): (xs: seq<real>)
    ensures |xs| == |hits|
  {
    seq(|hits|, i requires 0 <= i < |hits| => if hits[i].side == side then hits[i].notional else 0.0)
  }

  function Notionals(hits: seq<Hit>): (xs: seq<real>)
    ensures |xs| == |hits|
  {
    seq(|hits|, i requires 0 <= i < |hits| => hits[i].notional)
  }

  /** Each gauge is the sum of its own side's notionals, a trade i trades old
      counting 0.999^i; together they are that sum over all trades, whatever
      the sides. */
  lemma {:induction false} FlowClosedForm(hits: seq<Hit>)
    ensures After(hits).inflow == Discounted(0.999, NotionalsOf(hits, Buy), 0)
    ensures After(hits).outflow == Discounted(0.999, NotionalsOf(hits, Sell), 0)
    ensures After(hits).inflow + After(hits).outflow == Discounted(0.999, Notionals(hits), 0)
  {
    hide Aged, Pow;
    if hits != [] {
      var n := |hits| - 1;
      var init := hits[..n];
      FlowClosedForm(init);
      assert NotionalsOf(hits, Buy)[..n] == NotionalsOf(init, Buy);
      assert NotionalsOf(hits, Sell)[..n] == NotionalsOf(init, Sell);
      assert Notionals(hits)[..n] == Notionals(init);
      DiscountedAges(FLOW_DECAY, NotionalsOf(init, Buy), 0);
      DiscountedAges(FLOW_DECAY, NotionalsOf(init, Sell), 0);
      DiscountedAges(FLOW_DECAY, Notionals(init), 0);
      AgedStep(FLOW_DECAY, hits[n].notional, 0);
      AgedStep(FLOW_DECAY, 0.0, 0);
    }
  }

  /** 1000 * M * (1 - 0.999^n): what n notionals of M each would leave. */
  function Ceiling(m: real, n: nat): real {
    1000.0 * (m * (1.0 - Pow(0.999, n)))
  }

  /** With notionals in [0, M] the two gauges are non-negative and together never
      exceed 1000 * M * (1 - 0.999^n) after n trades. */
  lemma {:induction false} FlowBound(hits: seq<Hit>, m: real)
    requires forall i :: 0 <= i < |hits| ==> 0.0 <= hits[i].notional <= m
    ensures After(hits).inflow >= 0.0 && After(hits).outflow >= 0.0
    ensures After(hits).inflow + After(hits).outflow <= Ceiling(m, |hits|)
  {
    if hits == [] {
      assert m * (1.0 - 1.0) == 0.0;
    } else {
      hide Ceiling, Pow;
      var init, h := hits[..|hits| - 1], hits[|hits| - 1];
      FlowBound(init, m);
      var f := After(init);
      CeilingStep(m, |init|, f.inflow + f.outflow, h.notional);
    }
  }

  lemma CeilingStep(m: real, n: nat, t: real, x: real)
    requires t <= Ceiling(m, n) && x <= m
    ensures t * FLOW_DECAY + x <= Ceiling(m, n + 1)
  {
    var p := Pow(FLOW_DECAY, n);
    assert m * (1.0 - p) == m - m * p;
    assert m * (1.0 - FLOW_DECAY * p) == m - FLOW_DECAY * (m * p);
  }

  // ------------------------------------------------------------- latency

  function Peak(latencies: seq<real>): real {
    if latencies == [] then 0.0
    else Max(Peak(latencies[..|latencies| - 1]) * LATENCY_DECAY, latencies[|latencies| - 1])
  }

  /** The latency readout is the largest latency seen so far, one that is i ticks
      old counting 0.995^i: it is at least every such value and equals one. */
  lemma {:induction false} PeakIsLargestAged(ls: seq<real>)
    requires forall i :: 0 <= i < |ls| ==> ls[i] >= 0.0
    ensures forall i :: 0 <= i < |ls| ==> Aged(0.995, ls[i], |ls| - 1 - i) <= Peak(ls)
    ensures ls != [] ==>
      exists i :: 0 <= i < |ls| && Aged(0.995, ls[i], |ls| - 1 - i) == Peak(ls)
  {
    hide Aged, Pow;
    if ls != [] {
      var n := |ls| - 1;
      var init := ls[..n];
      PeakIsLargestAged(init);
      AgedStep(LATENCY_DECAY, ls[n], 0);
      forall i | 0 <= i < n
        ensures Aged(LATENCY_DECAY, ls[i], n - i)
          == LATENCY_DECAY * Aged(LATENCY_DECAY, init[i], n - 1 - i)
      {
        AgedStep(LATENCY_DECAY, ls[i], n - 1 - i);
      }
      if n > 0 && Peak(init) * LATENCY_DECAY >= ls[n] {
        var i :| 0 <= i < n && Aged(LATENCY_DECAY, init[i], n - 1 - i) == Peak(init);
        assert Aged(LATENCY_DECAY, ls[i], n - i) == Peak(ls);
      } else {
        assert Aged(LATENCY_DECAY, ls[n], n - n) == Peak(ls);
      }
    }
  }
}
