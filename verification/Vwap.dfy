/** Session and rolling-window VWAP kept by running sums, against recomputation
    from the whole list of trades. */
module Vwap {
  import opened Statistics
  import opened WeightedPrice

  const MIN_VOLUME := 0.000000000001

  datatype PV = PV(priceVolume: real, volume: real)

  function PvAt(price: real, quantity: real): PV {
    PV(price * quantity, quantity)
  }

  datatype State = State(
    capacity: nat,
    sessionPv: real, sessionV: real,
    window: seq<PV>, windowPvSum: real, windowVSum: real)
  {
    function SessionVwap(): real {
      if sessionV > MIN_VOLUME then sessionPv / sessionV else 0.0
    }

    function WindowVwap(): real {
      if windowVSum > MIN_VOLUME then windowPvSum / windowVSum else 0.0
    }

    function OnTrade(price: real, quantity: real): State {
      var pv := PvAt(price, quantity);
      var grown := window + [pv];
      var evict := |grown| > capacity;
      State(capacity, sessionPv + pv.priceVolume, sessionV + quantity,
            if evict then grown[1..] else grown,
            windowPvSum + pv.priceVolume - (if evict then grown[0].priceVolume else 0.0),
            windowVSum + quantity - (if evict then grown[0].volume else 0.0))
    }

    function ResetSession(): State {
      this.(sessionPv := 0.0, sessionV := 0.0)
    }
  }

  function Empty(capacity: nat): State {
    State(capacity, 0.0, 0.0, [], 0.0, 0.0)
  }

  datatype Event = Traded(fill: Fill) | Reset

  function Apply(s: State, e: Event): State {
    match e
    case Traded(f) => s.OnTrade(f.price, f.quantity)
    case Reset => s.ResetSession()
  }

  function After(capacity: nat, events: seq<Event>): State {
    if events == [] then Empty(capacity)
    else Apply(After(capacity, events[..|events| - 1]), events[|events| - 1])
  }

  /** Every trade of the run. */
  function Fills(events: seq<Event>): seq<Fill> {
    if events == [] then []
    else
      var e := events[|events| - 1];
      Fills(events[..|events| - 1]) + (if e.Traded? then [e.fill] else [])
  }

  /** The trades since the last reset. */
  function SessionFills(events: seq<Event>): seq<Fill> {
    if events == [] || events[|events| - 1].Reset? then []
    else SessionFills(events[..|events| - 1]) + [events[|events| - 1].fill]
  }

  function PvOf(f: Fill): PV {
    PvAt(f.price, f.quantity)
  }

  function ToPv(fills: seq<Fill>): (w: seq<PV>)
    ensures |w| == |fills|
  {
    seq(|fills|, i requires 0 <= i < |fills| => PvOf(fills[i]))
  }

  /** `s` is what recomputing from `all` and `session` trades gives. */
  ghost predicate Recomputed(s: State, all: seq<Fill>, session: seq<Fill>) {
    var recent := LastN(all, s.capacity);
    && s.sessionPv == SumPv(session) && s.sessionV == SumQuantity(session)
    && s.window == ToPv(recent)
    && s.windowPvSum == SumPv(recent) && s.windowVSum == SumQuantity(recent)
  }

  lemma ToPvSlides(recent: seq<Fill>, f: Fill)
    ensures ToPv(recent + [f]) == ToPv(recent) + [PvOf(f)]
    ensures ToPv((recent + [f])[1..]) == ToPv(recent + [f])[1..]
    ensures PvOf((recent + [f])[0]) == ToPv(recent + [f])[0]
  {
    hide PvOf;
  }

  lemma SumsSlide(recent: seq<Fill>, f: Fill)
    ensures var grown, oldest := recent + [f], (recent + [f])[0];
      && SumPv(grown) == SumPv(recent) + f.price * f.quantity
      && SumQuantity(grown) == SumQuantity(recent) + f.quantity
      && SumPv(grown[1..]) == SumPv(grown) - oldest.price * oldest.quantity
      && SumQuantity(grown[1..]) == SumQuantity(grown) - oldest.quantity
  {
    hide SumPv, SumQuantity;
    var grown := recent + [f];
    SumsAppend(recent, [f]);
    SumsOfOne(f);
    assert grown == [grown[0]] + grown[1..];
    SumsAppend([grown[0]], grown[1..]);
    SumsOfOne(grown[0]);
  }

  lemma OnTradeWindow(s: State, f: Fill)
    ensures var grown := s.window + [PvOf(f)];
      s.OnTrade(f.price, f.quantity).window == if |grown| > s.capacity then grown[1..] else grown
  {
    hide PvAt;
  }

  /** One trade moves the window on by one entry. */
  lemma WindowSlides(s: State, all: seq<Fill>, f: Fill)
    requires s.window == ToPv(LastN(all, s.capacity))
    ensures s.OnTrade(f.price, f.quantity).window == ToPv(LastN(all + [f], s.capacity))
  {
    hide ToPv, LastN, PvOf, State.OnTrade;
    var recent := LastN(all, s.capacity);
    OnTradeWindow(s, f);
    LastNSlides(all, s.capacity, f);
    ToPvSlides(recent, f);
    assert s.window + [PvOf(f)] == ToPv(recent + [f]);
  }

  lemma {:induction false} OnTradeRecomputes(s: State, all: seq<Fill>, session: seq<Fill>, f: Fill)
    requires Recomputed(s, all, session)
    ensures Recomputed(s.OnTrade(f.price, f.quantity), all + [f], session + [f])
  {
    hide SumPv, SumQuantity, ToPv, LastN;
    LastNSlides(all, s.capacity, f);
    SumsAppend(session, [f]);
    SumsOfOne(f);
    var recent := LastN(all, s.capacity);
    ToPvSlides(recent, f);
    SumsSlide(recent, f);
    WindowSlides(s, all, f);
    var s' := s.OnTrade(f.price, f.quantity);
    assert s'.windowVSum == SumQuantity(LastN(all + [f], s.capacity));
    assert s'.windowPvSum == SumPv(LastN(all + [f], s.capacity));
  }

  /** After any run of trades and resets: the window holds the last `capacity`
      trades, resets or not, its sums are theirs, and the session sums are those
      of the trades since the last reset. */
  lemma {:induction false} AfterIsRecomputed(capacity: nat, events: seq<Event>)
    ensures Recomputed(After(capacity, events), Fills(events), SessionFills(events))
    ensures After(capacity, events).capacity == capacity
  {
    if events != [] {
      var init, e := events[..|events| - 1], events[|events| - 1];
      AfterIsRecomputed(capacity, init);
      if e.Traded? {
        OnTradeRecomputes(After(capacity, init), Fills(init), SessionFills(init), e.fill);
      } else {
        assert Fills(events) == Fills(init);
      }
    }
  }

  lemma {:induction false} NoResetSession(events: seq<Event>)
    requires forall i :: 0 <= i < |events| ==> events[i].Traded?
    ensures SessionFills(events) == Fills(events)
  {
    if events != [] { NoResetSession(events[..|events| - 1]); }
  }

  /** Conservation: without a reset, the session sums are what the window holds
      plus what it has evicted. */
  lemma SessionIsEvictedPlusWindow(capacity: nat, events: seq<Event>)
    requires forall i :: 0 <= i < |events| ==> events[i].Traded?
    ensures |After(capacity, events).window| <= |Fills(events)|
    ensures var s := After(capacity, events);
      var evicted := Fills(events)[..|Fills(events)| - |s.window|];
      && s.sessionPv == SumPv(evicted) + s.windowPvSum
      && s.sessionV == SumQuantity(evicted) + s.windowVSum
  {
    AfterIsRecomputed(capacity, events);
    NoResetSession(events);
    var all := Fills(events);
    var recent := LastN(all, capacity);
    var evicted := all[..|all| - |recent|];
    assert all == evicted + recent;
    SumsAppend(evicted, recent);
  }

  /** Whenever the window VWAP is not the fallback 0, it lies within any bounds
      that hold of the window's prices, in particular its lowest and highest. */
  lemma WindowVwapBetween(capacity: nat, events: seq<Event>, lo: real, hi: real)
    requires PricesWithin(LastN(Fills(events), capacity), lo, hi)
    requires After(capacity, events).windowVSum > 0.000000000001
    ensures lo <= After(capacity, events).WindowVwap() <= hi
  {
    AfterIsRecomputed(capacity, events);
    WeightedMeanBetween(LastN(Fills(events), capacity), lo, hi);
  }

  class VWAPCalculator {
    const windowCapacity: nat
    var sessionPv: real
    var sessionV: real
    var window: seq<PV>
    var windowPvSum: real
    var windowVSum: real

    function View(): State
      reads this
    {
      State(windowCapacity, sessionPv, sessionV, window, windowPvSum, windowVSum)
    }

    constructor (rollingWindowTrades: nat)
      ensures View() == Empty(rollingWindowTrades)
    {
      windowCapacity := rollingWindowTrades;
      sessionPv, sessionV, window, windowPvSum, windowVSum := 0.0, 0.0, [], 0.0, 0.0;
    }

    method OnTrade(price: real, quantity: real)
      modifies this
      ensures View() == old(View()).OnTrade(price, quantity)
    {
      var pv := price * quantity;
      sessionPv := sessionPv + pv;
      sessionV := sessionV + quantity;
      window := window + [PV(pv, quantity)];
      windowPvSum := windowPvSum + pv;
      windowVSum := windowVSum + quantity;
      if |window| > windowCapacity {
        var oldest := window[0];
        window := window[1..];
        windowPvSum := windowPvSum - oldest.priceVolume;
        windowVSum := windowVSum - oldest.volume;
      }
    }

    method GetSessionVwap() returns (v: real)
      ensures v == View().SessionVwap()
    {
      v := if sessionV > MIN_VOLUME then sessionPv / sessionV else 0.0;
    }

    method GetWindowVwap() returns (v: real)
      ensures v == View().WindowVwap()
    {
      v := if windowVSum > MIN_VOLUME then windowPvSum / windowVSum else 0.0;
    }

    method ResetSession()
      modifies this
      ensures View() == old(View()).ResetSession()
    {
      sessionPv, sessionV := 0.0, 0.0;
    }
  }
}
