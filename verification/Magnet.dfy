/** The dashboard's liquidity-magnet direction: a smoothed bias and a side that
    flips only once the bias clears a margin. */
module Magnet {
  import opened RealAlgebra
  import opened RealMath

  const DEPTH_ALPHA := 0.12
  const BIAS_ALPHA := 0.25
  const FLIP_THRESHOLD := 0.12
  const RECOMPUTE_MS := 1000
  const MIN_SCALE := 1000000.0

  datatype Side = Unset | Up | Down

  /** What a call finds in the rest of the dashboard's state. */
  datatype Input = Input(
    now: int, bidDepth: real, askDepth: real, flowBalance: real, bidRoC: real, askRoC: real)

  datatype State = State(
    bidDepthEma: real, askDepthEma: real, lastCompute: int, bias: real, side: Side)

  const FRESH := State(0.0, 0.0, 0, 0.0, Unset)

  /** An average that starts, and after an exact 0 starts again, at its input. */
  function Blend(ema: real, input: real, alpha: real): real {
    if ema != 0.0 then ema * (1.0 - alpha) + input * alpha else input
  }

  function RawBias(tanh: real -> real, bidEma: real, askEma: real, i: Input): real {
    var scale := Max(bidEma + askEma, MIN_SCALE);
    tanh((bidEma - askEma + i.flowBalance) / scale) * 0.65
    + tanh((i.bidRoC - i.askRoC) / (scale * 0.5)) * 0.35
  }

  function NextSide(side: Side, bias: real): Side {
    if bias > FLIP_THRESHOLD then Up
    else if bias < -FLIP_THRESHOLD then Down
    else if !side.Unset? then side
    else if bias >= 0.0 then Up else Down
  }

  function Step(tanh: real -> real, s: State, i: Input): State {
    var bidEma := Blend(s.bidDepthEma, i.bidDepth, DEPTH_ALPHA);
    var askEma := Blend(s.askDepthEma, i.askDepth, DEPTH_ALPHA);
    if i.now - s.lastCompute < RECOMPUTE_MS
    then s.(bidDepthEma := bidEma, askDepthEma := askEma)
    else
      var bias := Blend(s.bias, RawBias(tanh, bidEma, askEma, i), BIAS_ALPHA);
      State(bidEma, askEma, i.now, bias, NextSide(s.side, bias))
  }

  function After(tanh: real -> real, inputs: seq<Input>): State {
    if inputs == [] then FRESH
    else Step(tanh, After(tanh, inputs[..|inputs| - 1]), inputs[|inputs| - 1])
  }

  predicate Flipped(s: State, s': State) {
    !s.side.Unset? && s'.side != s.side
  }

  function Flips(tanh: real -> real, inputs: seq<Input>): nat {
    if inputs == [] then 0
    else
      var init := inputs[..|inputs| - 1];
      Flips(tanh, init) + if Flipped(After(tanh, init), After(tanh, inputs)) then 1 else 0
  }

  /** Total variation of the bias since the side was first set. */
  function Variation(tanh: real -> real, inputs: seq<Input>): (v: real)
    ensures v >= 0.0
  {
    if inputs == [] then 0.0
    else
      var init := inputs[..|inputs| - 1];
      var s, s' := After(tanh, init), After(tanh, inputs);
      Variation(tanh, init) + if s.side.Unset? then 0.0 else Abs(s'.bias - s.bias)
  }

  /** Time of the recomputation that first set the side. */
  function FirstCompute(tanh: real -> real, inputs: seq<Input>): int {
    if inputs == [] then 0
    else
      var init := inputs[..|inputs| - 1];
      if After(tanh, init).side.Unset? then After(tanh, inputs).lastCompute
      else FirstCompute(tanh, init)
  }

  lemma RawBiasBounded(tanh: real -> real, bidEma: real, askEma: real, i: Input)
    requires IsSquash(tanh)
    ensures -1.0 <= RawBias(tanh, bidEma, askEma, i) <= 1.0
  {
  }

  lemma BlendWithin(ema: real, input: real, lo: real, hi: real)
    requires lo <= ema <= hi && lo <= input <= hi
    ensures lo <= Blend(ema, input, BIAS_ALPHA) <= hi
  {
    assert ema * (1.0 - BIAS_ALPHA) == ema * 0.75 && input * BIAS_ALPHA == input * 0.25;
  }

  /** The bias stays within [-1, 1], so capping the strength at 1 never acts. */
  lemma {:induction false} BiasBounded(tanh: real -> real, inputs: seq<Input>)
    requires IsSquash(tanh)
    ensures -1.0 <= After(tanh, inputs).bias <= 1.0
    ensures Min(Abs(After(tanh, inputs).bias), 1.0) == Abs(After(tanh, inputs).bias)
  {
    hide Blend, RawBias;
    if inputs != [] {
      var init, i := inputs[..|inputs| - 1], inputs[|inputs| - 1];
      BiasBounded(tanh, init);
      var s := After(tanh, init);
      var bid := Blend(s.bidDepthEma, i.bidDepth, DEPTH_ALPHA);
      var ask := Blend(s.askDepthEma, i.askDepth, DEPTH_ALPHA);
      RawBiasBounded(tanh, bid, ask, i);
      BlendWithin(s.bias, RawBias(tanh, bid, ask, i), -1.0, 1.0);
    }
  }

  /** How far the bias must have travelled, told from where it stands now. */
  ghost predicate Travelled(s: State, flips: nat, v: real) {
    && (s.side.Unset? ==> flips == 0 && v == 0.0)
    && (s.side.Up? ==> v + s.bias >= 0.24 * flips as real)
    && (s.side.Down? ==> v - s.bias >= 0.24 * flips as real)
    && (flips >= 1 ==> v >= 0.24 * flips as real - 0.12)
  }

  lemma {:induction false} StepTravels(tanh: real -> real, s: State, i: Input, flips: nat, v: real)
    requires Travelled(s, flips, v)
    ensures var s' := Step(tanh, s, i);
      Travelled(s', flips + (if Flipped(s, s') then 1 else 0),
                v + if s.side.Unset? then 0.0 else Abs(s'.bias - s.bias))
  {
    hide Blend, RawBias;
  }

  lemma {:induction false} RunTravels(tanh: real -> real, inputs: seq<Input>)
    ensures Travelled(After(tanh, inputs), Flips(tanh, inputs), Variation(tanh, inputs))
  {
    hide Travelled, Step;
    if inputs == [] {
      FreshTravelled();
    } else {
      var init, i := inputs[..|inputs| - 1], inputs[|inputs| - 1];
      RunTravels(tanh, init);
      StepTravels(tanh, After(tanh, init), i, Flips(tanh, init), Variation(tanh, init));
    }
  }

  lemma FreshTravelled()
    ensures Travelled(FRESH, 0, 0.0)
  {
  }

  /** Hysteresis: a run in which the side flips f >= 1 times has moved the bias by
      at least 0.24 * f - 0.12 in total. The bound does not depend on how the bias
      is updated, so it covers the average restarting from its input at exactly 0. */
  lemma HysteresisTheorem(tanh: real -> real, inputs: seq<Input>)
    requires Flips(tanh, inputs) >= 1
    ensures Variation(tanh, inputs) >= 0.24 * Flips(tanh, inputs) as real - 0.12
  {
    RunTravels(tanh, inputs);
  }

  /** At most one flip per second: f flips take at least f recompute intervals
      after the side was first set. */
  lemma {:induction false} FlipsTakeTime(tanh: real -> real, inputs: seq<Input>)
    ensures After(tanh, inputs).side.Unset? ==> Flips(tanh, inputs) == 0
    ensures !After(tanh, inputs).side.Unset? ==>
      After(tanh, inputs).lastCompute - FirstCompute(tanh, inputs)
        >= RECOMPUTE_MS * Flips(tanh, inputs)
  {
    hide Blend, RawBias;
    if inputs != [] {
      FlipsTakeTime(tanh, inputs[..|inputs| - 1]);
    }
  }

  /** The side flips only while the unsmoothed bias is itself past the margin on
      the new side: smoothing delays a flip and never causes one. */
  lemma FlipNeedsRawBias(tanh: real -> real, s: State, i: Input)
    requires Flipped(s, Step(tanh, s, i))
    requires s.side.Up? ==> s.bias >= -FLIP_THRESHOLD
    requires s.side.Down? ==> s.bias <= FLIP_THRESHOLD
    ensures var s' := Step(tanh, s, i);
      var raw := RawBias(tanh, s'.bidDepthEma, s'.askDepthEma, i);
      if s'.side.Up? then raw > FLIP_THRESHOLD else raw < -FLIP_THRESHOLD
  {
    hide RawBias;
    var s' := Step(tanh, s, i);
    var raw := RawBias(tanh, s'.bidDepthEma, s'.askDepthEma, i);
    assert s.bias * (1.0 - BIAS_ALPHA) == s.bias * 0.75 && raw * BIAS_ALPHA == raw * 0.25;
  }

  /** The side always agrees with the last clear bias. */
  lemma {:induction false} SideFollowsBias(tanh: real -> real, inputs: seq<Input>)
    ensures var s := After(tanh, inputs);
      && (s.side.Up? ==> s.bias >= -FLIP_THRESHOLD)
      && (s.side.Down? ==> s.bias <= FLIP_THRESHOLD)
  {
    hide Blend, RawBias;
    if inputs != [] { SideFollowsBias(tanh, inputs[..|inputs| - 1]); }
  }

  /** The bias an input asks for, from the smoothed depths: which side outweighs
      the other counts 65%, which is filling faster 35%. */
  function Pull(tanh: real -> real, bidDepth: real, askDepth: real, i: Input): real {
    var scale := Max(bidDepth + askDepth, 1000000.0);
    tanh((bidDepth - askDepth + i.flowBalance) / scale) * 0.65
    + tanh((i.bidRoC - i.askRoC) / (scale * 0.5)) * 0.35
  }

  /** `now` is `before` moved 12% (for the depths) or 25% (for the bias) of the way
      to `input`; an average at exactly 0 takes the input itself. */
  predicate Moved(before: real, now: real, input: real, keep: real) {
    now == if before == 0.0 then input else keep * before + (1.0 - keep) * input
  }

  /** One call, by what it leaves: depths always move, bias and side only when at
      least a second has passed since they last did. */
  ghost predicate Recomputes(tanh: real -> real, s: State, i: Input, s': State) {
    && Moved(s.bidDepthEma, s'.bidDepthEma, i.bidDepth, 0.88)
    && Moved(s.askDepthEma, s'.askDepthEma, i.askDepth, 0.88)
    && (if i.now - s.lastCompute < 1000 then
          s'.lastCompute == s.lastCompute && s'.bias == s.bias && s'.side == s.side
        else
          && s'.lastCompute == i.now
          && Moved(s.bias, s'.bias, Pull(tanh, s'.bidDepthEma, s'.askDepthEma, i), 0.75)
          && (s'.bias > 0.12 ==> s'.side.Up?)
          && (s'.bias < -0.12 ==> s'.side.Down?)
          && (-0.12 <= s'.bias <= 0.12 && !s.side.Unset? ==> s'.side == s.side)
          && (-0.12 <= s'.bias <= 0.12 && s.side.Unset? ==> s'.side == if s'.bias >= 0.0 then Up else Down))
  }

  lemma StepRecomputes(tanh: real -> real, s: State, i: Input)
    ensures Recomputes(tanh, s, i, Step(tanh, s, i))
  {
    var s' := Step(tanh, s, i);
    assert RawBias(tanh, s'.bidDepthEma, s'.askDepthEma, i) == Pull(tanh, s'.bidDepthEma, s'.askDepthEma, i);
    hide RawBias, Pull;
  }

  /** The magnet points at the heavier side: on the first recomputation, bids that
      outweigh asks together with the recent flow, and do not drain faster, set it
      Up, and the reverse sets it Down. */
  lemma PointsAtHeavierSide(tanh: real -> real, i: Input)
    requires IsSquash(tanh) && i.now >= 1000
    ensures var balance := i.bidDepth - i.askDepth + i.flowBalance;
      var s := Step(tanh, FRESH, i);
      && (balance > 0.0 && i.bidRoC >= i.askRoC ==> s.side.Up? && s.bias > 0.0)
      && (balance < 0.0 && i.bidRoC <= i.askRoC ==> s.side.Down? && s.bias < 0.0)
  {
    var balance := i.bidDepth - i.askDepth + i.flowBalance;
    var scale := Max(i.bidDepth + i.askDepth, 1000000.0);
    QuotientHasSign(balance, scale);
    QuotientHasSign(i.bidRoC - i.askRoC, scale * 0.5);
    SquashSign(tanh, balance / scale);
    SquashSign(tanh, (i.bidRoC - i.askRoC) / (scale * 0.5));
    hide IsSquash;
    var s := Step(tanh, FRESH, i);
    assert s.bias == tanh(balance / scale) * 0.65 + tanh((i.bidRoC - i.askRoC) / (scale * 0.5)) * 0.35;
  }

  method Smooth(ema: real, input: real, alpha: real) returns (r: real)
    ensures r == Blend(ema, input, alpha)
    ensures 0.0 <= alpha <= 1.0 ==> Min(ema, input) <= r <= Max(ema, input)
  {
    if ema != 0.0 {
      r := ema * (1.0 - alpha) + input * alpha;
      assert r == Blend(ema, input, alpha);
      BlendBetween(ema, input, alpha);
    } else {
      r := input;
    }
  }

  lemma BlendBetween(a: real, b: real, alpha: real)
    ensures 0.0 <= alpha <= 1.0 ==> Min(a, b) <= a * (1.0 - alpha) + b * alpha <= Max(a, b)
  {
    if 0.0 <= alpha <= 1.0 {
      assert a * (1.0 - alpha) + b * alpha == a + alpha * (b - a);
      if a <= b {
        ScaleLe(b - a, 0.0, alpha);
        ScaleLe(b - a, alpha, 1.0);
      } else {
        ScaleLe(a - b, 0.0, alpha);
        ScaleLe(a - b, alpha, 1.0);
      }
    }
  }

  class MagnetState {
    const tanh: real -> real
    var bidDepthEma: real
    var askDepthEma: real
    var liqBalance: real
    var lastMagnetCompute: int
    var magnetBiasEma: real
    var magnetStrength: real
    var magnetSide: Side

    function View(): State
      reads this
    {
      State(bidDepthEma, askDepthEma, lastMagnetCompute, magnetBiasEma, magnetSide)
    }

    /** The strength shown is that of the bias, recomputed or not. */
    ghost predicate Valid()
      reads this
    {
      magnetStrength == Min(Abs(magnetBiasEma), 1.0)
    }

    constructor (tanh: real -> real)
      ensures View() == FRESH && this.tanh == tanh && Valid()
    {
      this.tanh := tanh;
      bidDepthEma, askDepthEma, liqBalance, lastMagnetCompute := 0.0, 0.0, 0.0, 0;
      magnetBiasEma, magnetStrength, magnetSide := 0.0, 0.0, Unset;
    }

    method ComputeLiquidityMagnet(i: Input)
      requires Valid()
      modifies this
      ensures View() == Step(tanh, old(View()), i)
      ensures Recomputes(tanh, old(View()), i, View())
      ensures Valid()
      ensures liqBalance == bidDepthEma - askDepthEma + i.flowBalance
    {
      hide Recomputes;
      StepRecomputes(tanh, View(), i);
      hide Blend, RawBias;
      bidDepthEma := Smooth(bidDepthEma, i.bidDepth, DEPTH_ALPHA);
      askDepthEma := Smooth(askDepthEma, i.askDepth, DEPTH_ALPHA);
      liqBalance := bidDepthEma - askDepthEma + i.flowBalance;
      if i.now - lastMagnetCompute < RECOMPUTE_MS {
        return;
      }
      lastMagnetCompute := i.now;
      var rawBias := RawBias(tanh, bidDepthEma, askDepthEma, i);
      magnetBiasEma := Smooth(magnetBiasEma, rawBias, BIAS_ALPHA);
      magnetStrength := Min(Abs(magnetBiasEma), 1.0);
      var side := magnetSide;
      if side == Unset {
        side := if magnetBiasEma >= 0.0 then Up else Down;
      }
      if magnetBiasEma > FLIP_THRESHOLD {
        side := Up;
      } else if magnetBiasEma < -FLIP_THRESHOLD {
        side := Down;
      }
      magnetSide := side;
    }
  }
}
