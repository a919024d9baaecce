/** Best-of-book order flow imbalance: the branching code, its indicator formula,
    and what its sums over whole book histories amount to. */
module OrderFlow {
  import opened RealAlgebra
  import opened RealMath
  import D = Decay

  datatype Quote = Quote(bidPrice: real, bidSize: real, askPrice: real, askSize: real)

  /** One update, as the code branches. */
  function Instant(prev: Quote, cur: Quote): real {
    var bid :=
      if cur.bidPrice > prev.bidPrice then cur.bidSize
      else if cur.bidPrice == prev.bidPrice then cur.bidSize - prev.bidSize
      else -prev.bidSize;
    var ask :=
      if cur.askPrice < prev.askPrice then cur.askSize
      else if cur.askPrice == prev.askPrice then cur.askSize - prev.askSize
      else -prev.askSize;
    bid - ask
  }

  function Indicator(b: bool): real { if b then 1.0 else 0.0 }

  /** The Cont-Kukanov-Stoikov formula, as the header states it. */
  function Formula(prev: Quote, cur: Quote): real {
    var bid := cur.bidSize * Indicator(cur.bidPrice >= prev.bidPrice)
             - prev.bidSize * Indicator(cur.bidPrice <= prev.bidPrice);
    var ask := cur.askSize * Indicator(cur.askPrice <= prev.askPrice)
             - prev.askSize * Indicator(cur.askPrice >= prev.askPrice);
    bid - ask
  }

  lemma InstantIsFormula(prev: Quote, cur: Quote)
    ensures Instant(prev, cur) == Formula(prev, cur)
  {
    assert cur.bidSize * 1.0 == cur.bidSize && prev.bidSize * 1.0 == prev.bidSize;
    assert cur.askSize * 1.0 == cur.askSize && prev.askSize * 1.0 == prev.askSize;
  }

  function Mix(average: real, x: real, decay: real): real {
    average * decay + x * (1.0 - decay)
  }

  datatype State = State(decay: real, hasPrev: bool, prev: Quote, ema: real, scale: real) {

    /** The value on_depth_update returns. */
    function Ofi(q: Quote): real {
      if hasPrev then Instant(prev, q) else 0.0
    }

    function OnDepth(q: Quote): State {
      if hasPrev then
        State(decay, true, q,
              Mix(ema, Ofi(q), decay),
              scale * 0.98 + (q.bidSize + q.askSize) / 2.0 * 0.02)
      else State(decay, true, q, ema, scale)
    }

    function Normalized(tanh: real -> real): real {
      tanh(ema / (Max(scale, 0.000001) * 4.0))
    }
  }

  function Start(decay: real): State {
    State(decay, false, Quote(0.0, 0.0, 0.0, 0.0), 0.0, 1.0)
  }

  function After(decay: real, quotes: seq<Quote>): State {
    if quotes == [] then Start(decay)
    else After(decay, quotes[..|quotes| - 1]).OnDepth(quotes[|quotes| - 1])
  }

  /** Sum of the values returned over a book history. */
  function TotalReturned(decay: real, quotes: seq<Quote>): real {
    if quotes == [] then 0.0
    else
      var init := quotes[..|quotes| - 1];
      TotalReturned(decay, init) + After(decay, init).Ofi(quotes[|quotes| - 1])
  }

  /** Sum of the formula over consecutive quotes. */
  function TotalFormula(quotes: seq<Quote>): real {
    if |quotes| < 2 then 0.0
    else TotalFormula(quotes[..|quotes| - 1]) + Formula(quotes[|quotes| - 2], quotes[|quotes| - 1])
  }

  lemma {:induction false} AfterRemembersLast(decay: real, quotes: seq<Quote>)
    ensures After(decay, quotes).decay == decay
    ensures After(decay, quotes).hasPrev <==> quotes != []
    ensures quotes != [] ==> After(decay, quotes).prev == quotes[|quotes| - 1]
  {
    if quotes != [] { AfterRemembersLast(decay, quotes[..|quotes| - 1]); }
  }

  lemma {:induction false} ReturnedIsFormula(decay: real, quotes: seq<Quote>)
    ensures TotalReturned(decay, quotes) == TotalFormula(quotes)
  {
    if quotes != [] {
      var init := quotes[..|quotes| - 1];
      ReturnedIsFormula(decay, init);
      AfterRemembersLast(decay, init);
      if init != [] {
        InstantIsFormula(init[|init| - 1], quotes[|quotes| - 1]);
      }
    }
  }

  /** The formula's value at each update after the first. */
  function Imbalances(quotes: seq<Quote>): (xs: seq<real>)
    ensures |xs| == if quotes == [] then 0 else |quotes| - 1
  {
    if |quotes| < 2 then []
    else Imbalances(quotes[..|quotes| - 1]) + [Formula(quotes[|quotes| - 2], quotes[|quotes| - 1])]
  }

  /** The mean of the two best sizes at each update after the first. */
  function MeanSizes(quotes: seq<Quote>): (xs: seq<real>)
    ensures |xs| == if quotes == [] then 0 else |quotes| - 1
  {
    if |quotes| < 2 then []
    else
      var q := quotes[|quotes| - 1];
      MeanSizes(quotes[..|quotes| - 1]) + [(q.bidSize + q.askSize) / 2.0]
  }

  lemma LastUpdate(decay: real, quotes: seq<Quote>)
    requires |quotes| >= 2
    ensures var n := |quotes| - 1;
      var before, now, x, y := After(decay, quotes[..n]), After(decay, quotes),
        Imbalances(quotes), MeanSizes(quotes);
      && x[..n - 1] == Imbalances(quotes[..n]) && y[..n - 1] == MeanSizes(quotes[..n])
      && now.ema == Mix(before.ema, x[n - 1], decay)
      && now.scale == before.scale * 0.98 + y[n - 1] * 0.02
  {
    hide Instant, Formula, Mix;
    var n := |quotes| - 1;
    var init := quotes[..n];
    AfterRemembersLast(decay, init);
    InstantIsFormula(quotes[n - 1], quotes[n]);
    assert init[n - 1] == quotes[n - 1];
    var before, q := After(decay, init), quotes[n];
    assert After(decay, quotes) == before.OnDepth(q);
    assert Imbalances(quotes)[n - 1] == before.Ofi(q);
  }

  lemma FirstUpdate(decay: real, quotes: seq<Quote>)
    requires |quotes| < 2
    ensures After(decay, quotes).ema == 0.0 && After(decay, quotes).scale == 1.0
    ensures Imbalances(quotes) == [] && MeanSizes(quotes) == []
  {
    if |quotes| == 1 {
      assert After(decay, quotes[..0]) == Start(decay);
    }
  }

  /** The decayed imbalance is 1 - decay times the sum of the formula's values,
      one that is i updates old counting decay^i. */
  lemma {:induction false} EmaClosedForm(decay: real, quotes: seq<Quote>)
    ensures After(decay, quotes).ema == (1.0 - decay) * D.Discounted(decay, Imbalances(quotes), 0)
  {
    hide After, Imbalances, MeanSizes, D.Aged, Mix;
    if |quotes| >= 2 {
      var n := |quotes| - 1;
      var init, x := quotes[..n], Imbalances(quotes);
      EmaClosedForm(decay, init);
      LastUpdate(decay, quotes);
      D.DiscountedAges(decay, Imbalances(init), 0);
      D.AgedStep(decay, x[n - 1], 0);
      AverageStep(decay, After(decay, init).ema, D.Discounted(decay, Imbalances(init), 0), x[n - 1],
        D.Discounted(decay, x, 0));
    } else {
      FirstUpdate(decay, quotes);
    }
  }

  lemma AverageStep(decay: real, ema: real, sum: real, x: real, sum': real)
    requires ema == (1.0 - decay) * sum && sum' == decay * sum + x
    ensures Mix(ema, x, decay) == (1.0 - decay) * sum'
  {
    assert ema * decay == (1.0 - decay) * (decay * sum);
  }

  /** The scale is the average of the sizes with decay 0.98, started at 1. */
  lemma {:induction false} ScaleClosedForm(decay: real, quotes: seq<Quote>)
    ensures After(decay, quotes).scale
      == D.Pow(0.98, |MeanSizes(quotes)|) + 0.02 * D.Discounted(0.98, MeanSizes(quotes), 0)
  {
    hide After, Imbalances, MeanSizes, D.Aged, Mix;
    if |quotes| >= 2 {
      var n := |quotes| - 1;
      var init, y := quotes[..n], MeanSizes(quotes);
      ScaleClosedForm(decay, init);
      LastUpdate(decay, quotes);
      D.DiscountedAges(0.98, MeanSizes(init), 0);
      D.AgedStep(0.98, y[n - 1], 0);
      assert D.Pow(0.98, n) == 0.98 * D.Pow(0.98, n - 1) && |y| == n && |MeanSizes(init)| == n - 1;
    } else {
      FirstUpdate(decay, quotes);
    }
  }

  function Reversed(quotes: seq<Quote>): (r: seq<Quote>)
    ensures |r| == |quotes|
  {
    seq(|quotes|, i requires 0 <= i < |quotes| => quotes[|quotes| - 1 - i])
  }

  /** The same sum, taken from the front. */
  lemma {:induction false} TotalFromFront(quotes: seq<Quote>)
    requires |quotes| >= 2
    ensures TotalFormula(quotes) == Formula(quotes[0], quotes[1]) + TotalFormula(quotes[1..])
    decreases |quotes|
  {
    var n := |quotes| - 1;
    if n > 1 {
      TotalFromFront(quotes[..n]);
      assert quotes[..n][1..] == quotes[1..][..n - 1];
    } else {
      assert |quotes[..n]| == 1 && |quotes[1..]| == 1;
    }
  }

  lemma FormulaAntisymmetric(a: Quote, b: Quote)
    ensures Formula(a, b) == -Formula(b, a)
  {
    InstantIsFormula(a, b);
    InstantIsFormula(b, a);
  }

  /** Running a book history backwards negates its total imbalance. */
  lemma {:induction false} ReversalNegates(decay: real, quotes: seq<Quote>)
    ensures TotalReturned(decay, Reversed(quotes)) == -TotalReturned(decay, quotes)
    decreases |quotes|
  {
    ReturnedIsFormula(decay, quotes);
    ReturnedIsFormula(decay, Reversed(quotes));
    if |quotes| >= 2 {
      var n := |quotes| - 1;
      var init, back := quotes[..n], Reversed(quotes);
      assert back[1..] == Reversed(init);
      ReversalNegates(decay, init);
      ReturnedIsFormula(decay, init);
      ReturnedIsFormula(decay, Reversed(init));
      TotalFromFront(back);
      FormulaAntisymmetric(quotes[n - 1], quotes[n]);
    }
  }

  /** A book that retraces its own path ends with no net imbalance. */
  lemma RetracedPathCancels(decay: real, quotes: seq<Quote>)
    requires Reversed(quotes) == quotes
    ensures TotalReturned(decay, quotes) == 0.0
  {
    ReversalNegates(decay, quotes);
  }

  /** While neither best price moves, the total is the growth of the bid size
      minus the growth of the ask size, whatever happened in between. */
  lemma {:induction false} ConstantPricesTelescope(decay: real, quotes: seq<Quote>)
    requires quotes != []
    requires forall i :: 0 <= i < |quotes| ==>
      quotes[i].bidPrice == quotes[0].bidPrice && quotes[i].askPrice == quotes[0].askPrice
    ensures var first, last := quotes[0], quotes[|quotes| - 1];
      TotalReturned(decay, quotes)
      == (last.bidSize - first.bidSize) - (last.askSize - first.askSize)
    decreases |quotes|
  {
    var init := quotes[..|quotes| - 1];
    AfterRemembersLast(decay, init);
    if init != [] {
      ConstantPricesTelescope(decay, init);
    } else {
      assert TotalReturned(decay, init) == 0.0;
    }
  }

  /** A best quote that never changes leaves no imbalance. */
  lemma {:induction false} StandingStill(decay: real, quotes: seq<Quote>, q: Quote)
    requires forall i :: 0 <= i < |quotes| ==> quotes[i] == q
    ensures After(decay, quotes).ema == 0.0
  {
    if quotes != [] {
      var init := quotes[..|quotes| - 1];
      StandingStill(decay, init, q);
      AfterRemembersLast(decay, init);
    }
  }

  /** The scale is floored at a positive number before dividing, so the normalised
      imbalance always has the sign of the decayed one. */
  lemma {:induction false} NormalizedSign(decay: real, quotes: seq<Quote>, tanh: real -> real)
    requires IsSquash(tanh)
    ensures var s := After(decay, quotes);
      && (s.Normalized(tanh) > 0.0 <==> s.ema > 0.0)
      && (s.Normalized(tanh) < 0.0 <==> s.ema < 0.0)
  {
    var s := After(decay, quotes);
    var denominator := Max(s.scale, 0.000001) * 4.0;
    SquashSign(tanh, s.ema / denominator);
    QuotientHasSign(s.ema, denominator);
  }

  class OFICalculator {
    const decay: real
    const tanh: real -> real
    var hasPrev: bool
    var prevBidPrice: real
    var prevBidSize: real
    var prevAskPrice: real
    var prevAskSize: real
    var ema: real
    var scale: real

    function View(): State
      reads this
    {
      State(decay, hasPrev, Quote(prevBidPrice, prevBidSize, prevAskPrice, prevAskSize), ema, scale)
    }

    constructor (decay: real, tanh: real -> real)
      ensures View() == Start(decay) && this.tanh == tanh
    {
      this.decay := decay;
      this.tanh := tanh;
      hasPrev, ema, scale := false, 0.0, 1.0;
      prevBidPrice, prevBidSize, prevAskPrice, prevAskSize := 0.0, 0.0, 0.0, 0.0;
    }

    method OnDepthUpdate(bidPrice: real, bidSize: real, askPrice: real, askSize: real)
      returns (ofi: real)
      modifies this
      ensures View() == old(View()).OnDepth(Quote(bidPrice, bidSize, askPrice, askSize))
      ensures ofi == if old(hasPrev)
        then Formula(old(View()).prev, Quote(bidPrice, bidSize, askPrice, askSize)) else 0.0
    {
      ofi := 0.0;
      if hasPrev {
        InstantIsFormula(View().prev, Quote(bidPrice, bidSize, askPrice, askSize));
        var bidChange;
        if bidPrice > prevBidPrice {
          bidChange := bidSize;
        } else if bidPrice == prevBidPrice {
          bidChange := bidSize - prevBidSize;
        } else {
          bidChange := -prevBidSize;
        }
        var askChange;
        if askPrice < prevAskPrice {
          askChange := askSize;
        } else if askPrice == prevAskPrice {
          askChange := askSize - prevAskSize;
        } else {
          askChange := -prevAskSize;
        }
        ofi := bidChange - askChange;
        var observedScale := (bidSize + askSize) / 2.0;
        scale := scale * 0.98 + observedScale * 0.02;
        ema := ema * decay + ofi * (1.0 - decay);
      }
      prevBidPrice, prevBidSize := bidPrice, bidSize;
      prevAskPrice, prevAskSize := askPrice, askSize;
      hasPrev := true;
    }

    method GetNormalized() returns (n: real)
      ensures n == View().Normalized(tanh)
    {
      var denominator := Max(scale, 0.000001);
      n := tanh(ema / (denominator * 4.0));
    }
  }
}
