/** Liquidity-vacuum detector: it scores how fast each side of the book is being
    withdrawn against that side's own recent withdrawals. */
module Vacuum {
  import opened RealMath
  import opened Statistics
  import RS = RollingStats

  datatype Side = Buy | Sell

  datatype Result = Result(triggered: bool, side: Side, magnitude: real)

  const QUIET := Result(false, Buy, 0.0)

  datatype State = State(trigger: real, bids: RS.Stats, asks: RS.Stats, prevBid: real, prevAsk: real) {

    function OnDepth(bidDepth: real, askDepth: real): State {
      if prevBid >= 0.0 then
        State(trigger, bids.Push(prevBid - bidDepth), asks.Push(prevAsk - askDepth), bidDepth, askDepth)
      else State(trigger, bids, asks, bidDepth, askDepth)
    }

    function Verdict(sqrt: real -> real, bidDepth: real, askDepth: real): Result {
      if prevBid >= 0.0 then
        Decide(trigger, bids.Score(sqrt, prevBid - bidDepth), asks.Score(sqrt, prevAsk - askDepth))
      else QUIET
    }
  }

  function Decide(trigger: real, bidZ: real, askZ: real): Result {
    if bidZ > trigger && bidZ >= askZ then Result(true, Sell, bidZ)
    else if askZ > trigger then Result(true, Buy, askZ)
    else QUIET
  }

  function Start(window: nat, trigger: real): State {
    State(trigger, RS.Empty(window), RS.Empty(window), -1.0, -1.0)
  }

  datatype Depths = Depths(bid: real, ask: real)

  function After(window: nat, trigger: real, depths: seq<Depths>): State {
    if depths == [] then Start(window, trigger)
    else
      var d := depths[|depths| - 1];
      After(window, trigger, depths[..|depths| - 1]).OnDepth(d.bid, d.ask)
  }

  ghost predicate NonNegative(depths: seq<Depths>) {
    forall i :: 0 <= i < |depths| ==> depths[i].bid >= 0.0 && depths[i].ask >= 0.0
  }

  /** Depth withdrawn from one side between consecutive updates. */
  function Withdrawals(xs: seq<real>): (w: seq<real>)
    ensures |w| == if xs == [] then 0 else |xs| - 1
  {
    if |xs| < 2 then []
    else Withdrawals(xs[..|xs| - 1]) + [xs[|xs| - 2] - xs[|xs| - 1]]
  }

  function Bids(depths: seq<Depths>): (xs: seq<real>)
    ensures |xs| == |depths|
  {
    seq(|depths|, i requires 0 <= i < |depths| => depths[i].bid)
  }

  function Asks(depths: seq<Depths>): (xs: seq<real>)
    ensures |xs| == |depths|
  {
    seq(|depths|, i requires 0 <= i < |depths| => depths[i].ask)
  }

  /** After any run of non-negative depths each side's statistics are those of
      its own withdrawals, all of them and in order. */
  lemma {:induction false} AfterIsWithdrawals(window: nat, trigger: real, depths: seq<Depths>)
    requires NonNegative(depths)
    ensures var s := After(window, trigger, depths);
      && s.trigger == trigger
      && s.bids == RS.After(window, Withdrawals(Bids(depths)))
      && s.asks == RS.After(window, Withdrawals(Asks(depths)))
      && (if depths == [] then s.prevBid < 0.0
          else s.prevBid == depths[|depths| - 1].bid && s.prevAsk == depths[|depths| - 1].ask)
  {
    hide RS.Stats.Push;
    if depths != [] {
      var n := |depths| - 1;
      var init := depths[..n];
      AfterIsWithdrawals(window, trigger, init);
      assert Bids(depths)[..n] == Bids(init) && Asks(depths)[..n] == Asks(init);
      var bw, aw := Withdrawals(Bids(depths)), Withdrawals(Asks(depths));
      if n > 0 {
        assert bw[..|bw| - 1] == Withdrawals(Bids(init)) && bw[|bw| - 1] == depths[n - 1].bid - depths[n].bid;
        assert aw[..|aw| - 1] == Withdrawals(Asks(init)) && aw[|aw| - 1] == depths[n - 1].ask - depths[n].ask;
      }
    }
  }

  /** Withdrawals over a stretch add up to the depth at its start minus the depth
      at its end. */
  lemma {:induction false} WithdrawalsTelescope(xs: seq<real>, k: nat)
    requires k < |xs|
    ensures Sum(Withdrawals(xs)[k..]) == xs[k] - xs[|xs| - 1]
    decreases |xs|
  {
    var n := |xs| - 1;
    var w := Withdrawals(xs);
    if k == n {
      assert w[k..] == [];
    } else {
      WithdrawalsTelescope(xs[..n], k);
      assert w[k..][..|w[k..]| - 1] == Withdrawals(xs[..n])[k..];
    }
  }

  /** Both windows hold the same number of withdrawals, and each sums to an old
      depth minus the current one: the depth that many updates ago. */
  lemma WindowsTelescope(window: nat, trigger: real, depths: seq<Depths>)
    requires NonNegative(depths) && depths != []
    ensures var s := After(window, trigger, depths);
      var n := |depths| - 1;
      var held := if n < window then n else window;
      && |s.bids.window| == |s.asks.window| == held
      && s.bids.sum == depths[n - held].bid - depths[n].bid
      && s.asks.sum == depths[n - held].ask - depths[n].ask
  {
    hide After, RS.After, Withdrawals, LastN, Sum, SumSquares;
    var n := |depths| - 1;
    var held := if n < window then n else window;
    AfterIsWithdrawals(window, trigger, depths);
    RS.AfterIsWindow(window, Withdrawals(Bids(depths)));
    RS.AfterIsWindow(window, Withdrawals(Asks(depths)));
    WithdrawalsTelescope(Bids(depths), n - held);
    WithdrawalsTelescope(Asks(depths), n - held);
    LastNIsSuffix(Withdrawals(Bids(depths)), window);
    LastNIsSuffix(Withdrawals(Asks(depths)), window);
  }

  lemma LastNIsSuffix<T>(xs: seq<T>, n: nat)
    ensures LastN(xs, n) == xs[if |xs| < n then 0 else |xs| - n..]
  {
  }

  /** The score of a side's newest withdrawal, recomputed in two passes from the
      last `window` withdrawals before it. */
  ghost function NaiveZ(sqrt: real -> real, window: nat, xs: seq<real>, next: real): real
    requires xs != []
  {
    RS.NaiveScore(sqrt, LastN(Withdrawals(xs), window), xs[|xs| - 1] - next)
  }

  /** The alarm goes off exactly when the larger of the two recomputed scores
      exceeds the trigger, and then reports that score; on a tie the bid side
      wins. The first update never alarms. */
  lemma AlarmIffMaxExceedsTrigger(window: nat, trigger: real, sqrt: real -> real,
                                  depths: seq<Depths>, next: Depths)
    requires NonNegative(depths)
    ensures var r := After(window, trigger, depths).Verdict(sqrt, next.bid, next.ask);
      if depths == [] then r == QUIET
      else
        var bidZ := NaiveZ(sqrt, window, Bids(depths), next.bid);
        var askZ := NaiveZ(sqrt, window, Asks(depths), next.ask);
        && (r.triggered <==> Max(bidZ, askZ) > trigger)
        && (r.triggered ==> r.magnitude == Max(bidZ, askZ))
        && (r.triggered ==> (r.side.Sell? <==> bidZ >= askZ))
        && (!r.triggered ==> r == QUIET)
  {
    hide RS.After, RS.NaiveScore, RS.Stats.Score, Withdrawals, LastN;
    AfterIsWithdrawals(window, trigger, depths);
    if depths != [] {
      var n := |depths| - 1;
      RS.ScoreIsNaive(window, Withdrawals(Bids(depths)), sqrt, depths[n].bid - next.bid);
      RS.ScoreIsNaive(window, Withdrawals(Asks(depths)), sqrt, depths[n].ask - next.ask);
    }
  }

  class LiquidityVacuumDetector {
    const trigger: real
    const bidDeltaStats: RS.RollingStats
    const askDeltaStats: RS.RollingStats
    const sqrt: real -> real
    var prevBidDepth: real
    var prevAskDepth: real

    ghost predicate Valid()
      reads this, bidDeltaStats, askDeltaStats
    {
      bidDeltaStats != askDeltaStats && bidDeltaStats.sqrt == askDeltaStats.sqrt == sqrt
    }

    function View(): State
      reads this, bidDeltaStats, askDeltaStats
    {
      State(trigger, bidDeltaStats.View(), askDeltaStats.View(), prevBidDepth, prevAskDepth)
    }

    constructor (baselineWindow: nat, trigger: real, sqrt: real -> real)
      ensures Valid() && fresh(bidDeltaStats) && fresh(askDeltaStats)
      ensures View() == Start(baselineWindow, trigger) && this.sqrt == sqrt
    {
      this.trigger := trigger;
      this.sqrt := sqrt;
      bidDeltaStats := new RS.RollingStats(baselineWindow, sqrt);
      askDeltaStats := new RS.RollingStats(baselineWindow, sqrt);
      prevBidDepth, prevAskDepth := -1.0, -1.0;
    }

    method OnDepthUpdate(bidDepthSum: real, askDepthSum: real) returns (result: Result)
      requires Valid()
      modifies this, bidDeltaStats, askDeltaStats
      ensures Valid()
      ensures View() == old(View()).OnDepth(bidDepthSum, askDepthSum)
      ensures result == old(View()).Verdict(sqrt, bidDepthSum, askDepthSum)
    {
      result := QUIET;
      if prevBidDepth >= 0.0 {
        var bidWithdrawal := prevBidDepth - bidDepthSum;
        var askWithdrawal := prevAskDepth - askDepthSum;
        var bidZ := bidDeltaStats.PushAndScore(bidWithdrawal);
        var askZ := askDeltaStats.PushAndScore(askWithdrawal);
        if bidZ > trigger && bidZ >= askZ {
          result := Result(true, Sell, bidZ);
        } else if askZ > trigger {
          result := Result(true, Buy, askZ);
        }
      }
      prevBidDepth, prevAskDepth := bidDepthSum, askDepthSum;
    }
  }
}
