/**
 Execution (research/mds/execution.py): what a rebalance achieves and costs. The realistic model fills at most
 a fraction of each name's daily volume, so a large trade is worked off over several rebalances.
 */
module Execution {
  import opened Reals

  /** A name's liquidity as of the prior close; None is a missing (NaN) figure. */
  datatype Quote = Quote(adv: Option<real>, vol: Option<real>, spread: Option<real>)

  datatype Model =
    | FlatBps(bps: real)
    | Realistic(impactCoef: real, maxParticipation: real, borrowBps: real, financingBps: real)

  /** What a rebalance achieves, or None when the realistic model is given no liquidity. */
  type Outcome = Option<Fill>

  datatype Fill = Fill(weights: seq<real>, cost: real)

  const TRADING_DAYS := 252.0

  function OrZero(x: Option<real>): real {
    if x.Some? then x.value else 0.0
  }

  /** Dollars tradable in one rebalance; None is no limit. */
  function Cap(m: Model, q: Quote): Option<real> {
    if m.Realistic? && q.adv.Some? && q.adv.value > 0.0 then Some(m.maxParticipation * q.adv.value) else None
  }

  function Filled(desired: real, cap: Option<real>): real {
    if cap.None? then desired else Clip(desired, -cap.value, cap.value)
  }

  /** One name's weight after trading towards `target`. */
  function Achieve(prev: real, target: real, aum: real, cap: Option<real>): real
    requires aum > 0.0
  {
    prev + Filled((target - prev) * aum, cap) / aum
  }

  /** Half the spread and the square-root impact, on the dollars traded. */
  function TradeCost(m: Model, sqrt: real -> real, q: Quote, traded: real): real
    requires m.Realistic?
  {
    var participation := if q.adv.Some? && q.adv.value > 0.0 then traded / q.adv.value else 0.0;
    (OrZero(q.spread) / 2.0 + m.impactCoef * OrZero(q.vol) * sqrt(participation)) * traded
  }

  function Turnover(w: seq<real>, v: seq<real>): real
    requires |w| == |v|
  {
    Sum(AbsAll(Plus(w, Scale(-1.0, v))))
  }

  /** Dollars of one name traded in a rebalance. */
  function Traded(m: Model, prev: real, target: real, aum: real, q: Quote): (r: real)
    ensures r >= 0.0
  {
    Abs(Filled((target - prev) * aum, Cap(m, q)))
  }

  function TradeCosts(m: Model, sqrt: real -> real, prev: seq<real>, target: seq<real>, aum: real, liq: seq<Quote>): (c: seq<real>)
    requires m.Realistic? && |prev| == |target| == |liq|
    ensures |c| == |prev|
  {
    seq(|prev|, i requires 0 <= i < |prev| =>
      TradeCost(m, sqrt, liq[i], Traded(m, prev[i], target[i], aum, liq[i])))
  }

  function Rebalance(m: Model, sqrt: real -> real, prev: seq<real>, target: seq<real>, aum: real, liq: Option<seq<Quote>>): (r: Outcome)
    requires aum > 0.0 && |prev| == |target| && (liq.Some? ==> |liq.value| == |prev|)
    ensures r.Some? ==> |r.value.weights| == |prev|
  {
    match m
    case FlatBps(bps) => Some(Fill(target, Turnover(target, prev) * bps / 10000.0))
    case Realistic(_, _, _, _) =>
      if liq.None? then None
      else
        var w := seq(|prev|, i requires 0 <= i < |prev| => Achieve(prev[i], target[i], aum, Cap(m, liq.value[i])));
        Some(Fill(w, Sum(TradeCosts(m, sqrt, prev, target, aum, liq.value)) / aum))
  }

  function Shorts(w: seq<real>): (r: seq<real>)
    ensures |r| == |w|
  {
    seq(|w|, i requires 0 <= i < |w| => Abs(Min(w[i], 0.0)))
  }

  /** The daily borrow and financing drag of holding w. */
  function Carry(m: Model, w: seq<real>): real {
    match m
    case FlatBps(_) => 0.0
    case Realistic(_, _, borrow, financing) =>
      (Sum(Shorts(w)) * borrow + Max(Sum(AbsAll(w)) - 1.0, 0.0) * financing) / 10000.0 / TRADING_DAYS
  }

  // ------------------------------------------------------------------------------- partial fills

  predicate Between(x: real, a: real, b: real) {
    a <= x <= b || b <= x <= a
  }

  predicate Usable(cap: Option<real>) {
    cap.Some? ==> cap.value >= 0.0
  }

  lemma FilledBounds(desired: real, cap: Option<real>)
    requires Usable(cap)
    ensures Between(Filled(desired, cap), 0.0, desired)
    ensures Abs(desired - Filled(desired, cap)) == if cap.None? then 0.0 else Max(Abs(desired) - cap.value, 0.0)
  {}

  /** x / aum is between 0 and y when x is between 0 and y * aum. */
  lemma DivBetween(x: real, y: real, aum: real)
    requires aum > 0.0 && Between(x, 0.0, y * aum)
    ensures Between(x / aum, 0.0, y)
  {
    var q := x / aum;
    assert q * aum == x;
    if q < 0.0 && q < y {
      MulMono(aum, q, 0.0);
      StrictMul(aum, q, 0.0);
      StrictMul(aum, q, y);
    } else if q > 0.0 && q > y {
      StrictMul(aum, 0.0, q);
      StrictMul(aum, y, q);
    }
  }

  lemma StrictMul(k: real, x: real, y: real)
    requires k > 0.0 && x < y
    ensures x * k < y * k
  {}

  /** A rebalance never overshoots: the weight achieved lies between the previous one and the target. */
  lemma NeverOvershoots(prev: real, target: real, aum: real, cap: Option<real>)
    requires aum > 0.0 && Usable(cap)
    ensures Between(Achieve(prev, target, aum, cap), prev, target)
  {
    FilledBounds((target - prev) * aum, cap);
    var x, y := Filled((target - prev) * aum, cap), target - prev;
    hide Filled;
    DivBetween(x, y, aum);
  }

  lemma AbsTimes(x: real, k: real)
    requires k > 0.0
    ensures Abs(x) * k == Abs(x * k)
  {}

  lemma Remainder(target: real, prev: real, x: real, aum: real)
    requires aum > 0.0
    ensures (target - (prev + x / aum)) * aum == (target - prev) * aum - x
  {}

  /** Dollars still to trade. */
  function Residual(w: real, target: real, aum: real): real {
    Abs(target - w) * aum
  }

  lemma ResidualIs(w: real, target: real, aum: real, d: real)
    requires aum > 0.0 && (target - w) * aum == d
    ensures Residual(w, target, aum) == Abs(d)
  {}

  /** One rebalance works off exactly the cap, or whatever is left if that is less. */
  lemma ResidualShrinksByCap(prev: real, target: real, aum: real, cap: real)
    requires aum > 0.0 && cap >= 0.0
    ensures Residual(Achieve(prev, target, aum, Some(cap)), target, aum) == Max(Residual(prev, target, aum) - cap, 0.0)
  {
    hide Filled, Residual;
    var d := (target - prev) * aum;
    var x := Filled(d, Some(cap));
    FilledBounds(d, Some(cap));
    Remainder(target, prev, x, aum);
    ResidualIs(prev, target, aum, d);
    ResidualIs(prev + x / aum, target, aum, d - x);
  }

  /** The weight after n rebalances towards a fixed target under a fixed cap. */
  function Work(prev: real, target: real, aum: real, cap: Option<real>, n: nat): real
    requires aum > 0.0
  {
    if n == 0 then prev else Achieve(Work(prev, target, aum, cap, n - 1), target, aum, cap)
  }

  lemma {:induction false} ResidualAfter(prev: real, target: real, aum: real, cap: real, n: nat)
    requires aum > 0.0 && cap >= 0.0
    ensures Residual(Work(prev, target, aum, Some(cap), n), target, aum) == Max(Residual(prev, target, aum) - n as real * cap, 0.0)
  {
    hide Achieve;
    if n > 0 {
      ResidualAfter(prev, target, aum, cap, n - 1);
      var w := Work(prev, target, aum, Some(cap), n - 1);
      ResidualShrinksByCap(w, target, aum, cap);
      hide Residual;
      OneMore(n, cap);
    } else {
      hide Work;
      assert Work(prev, target, aum, Some(cap), 0) == prev by {
        NoWork(prev, target, aum, cap);
      }
      AbsTimes(target - prev, aum);
    }
  }

  lemma NoWork(prev: real, target: real, aum: real, cap: real)
    requires aum > 0.0
    ensures Work(prev, target, aum, Some(cap), 0) == prev
  {}

  lemma OneMore(n: nat, cap: real)
    requires n > 0 && cap >= 0.0
    ensures n as real * cap == (n - 1) as real * cap + cap && (n - 1) as real * cap >= 0.0
  {
    MulSum(cap, n as real, (n - 1) as real, 1.0);
    MulMono(cap, 0.0, (n - 1) as real);
  }

  lemma NothingLeft(w: real, target: real, aum: real)
    requires aum > 0.0
    ensures Residual(w, target, aum) == 0.0 <==> w == target
  {}

  /**
   A fixed target is reached after exactly the rebalances whose caps cover the trade, that is after
   ceil(|target - prev| * aum / cap) of them, and not before.
   */
  lemma ReachesTargetIff(prev: real, target: real, aum: real, cap: real, n: nat)
    requires aum > 0.0 && cap >= 0.0
    ensures Work(prev, target, aum, Some(cap), n) == target <==> Abs(target - prev) * aum <= n as real * cap
  {
    ResidualAfter(prev, target, aum, cap, n);
    NothingLeft(Work(prev, target, aum, Some(cap), n), target, aum);
  }

  // -------------------------------------------------------------------------------------- a book

  /** A model whose parameters are the ones the source allows: a participation fraction that is not negative. */
  predicate Sane(m: Model) {
    m.Realistic? ==> m.maxParticipation >= 0.0
  }

  lemma CapUsable(m: Model, q: Quote)
    requires Sane(m)
    ensures Usable(Cap(m, q))
  {
    if m.Realistic? && q.adv.Some? && q.adv.value > 0.0 {
      MulMono(m.maxParticipation, 0.0, q.adv.value);
    }
  }

  /** Every weight of the book ends between where it was and where it was going. */
  lemma BookNeverOvershoots(m: Model, sqrt: real -> real, prev: seq<real>, target: seq<real>, aum: real, liq: Option<seq<Quote>>, i: nat)
    requires aum > 0.0 && |prev| == |target| && (liq.Some? ==> |liq.value| == |prev|) && Sane(m) && i < |prev|
    ensures var r := Rebalance(m, sqrt, prev, target, aum, liq);
      (r.None? <==> m.Realistic? && liq.None?) && (r.Some? ==> Between(r.value.weights[i], prev[i], target[i]))
  {
    hide Achieve, Cap;
    if m.Realistic? && liq.Some? {
      CapUsable(m, liq.value[i]);
      NeverOvershoots(prev[i], target[i], aum, Cap(m, liq.value[i]));
    }
  }

  /** A name with no known volume is not capped, so it trades all the way to its target. */
  lemma UnknownVolumeFillsFully(m: Model, sqrt: real -> real, prev: seq<real>, target: seq<real>, aum: real, liq: seq<Quote>, i: nat)
    requires aum > 0.0 && |prev| == |target| == |liq| && m.Realistic? && i < |prev|
    requires liq[i].adv.None? || liq[i].adv.value <= 0.0
    ensures Rebalance(m, sqrt, prev, target, aum, Some(liq)).value.weights[i] == target[i]
  {
    var y := target[i] - prev[i];
    assert Achieve(prev[i], target[i], aum, None) == prev[i] + (y * aum) / aum;
    TimesOver(y, aum);
  }

  lemma TimesOver(y: real, aum: real)
    requires aum > 0.0
    ensures (y * aum) / aum == y
  {}

  /** Trading never pays: with non-negative spreads, volatilities and impact, no rebalance has a negative cost. */
  lemma CostIsNotNegative(m: Model, sqrt: real -> real, prev: seq<real>, target: seq<real>, aum: real, liq: seq<Quote>)
    requires aum > 0.0 && |prev| == |target| == |liq| && m.Realistic? && m.impactCoef >= 0.0
    requires forall x :: sqrt(x) >= 0.0
    requires forall i :: 0 <= i < |liq| ==> OrZero(liq[i].vol) >= 0.0 && OrZero(liq[i].spread) >= 0.0
    ensures Rebalance(m, sqrt, prev, target, aum, Some(liq)).value.cost >= 0.0
  {
    hide TradeCost, Traded;
    var costs := TradeCosts(m, sqrt, prev, target, aum, liq);
    forall i | 0 <= i < |costs| ensures costs[i] >= 0.0 {
      OneCost(m, sqrt, liq[i], Traded(m, prev[i], target[i], aum, liq[i]));
    }
    SumNotNegative(costs);
    hide TradeCosts;
    NotNegativeOver(Sum(costs), aum);
  }

  lemma OneCost(m: Model, sqrt: real -> real, q: Quote, traded: real)
    requires m.Realistic? && m.impactCoef >= 0.0 && traded >= 0.0
    requires OrZero(q.vol) >= 0.0 && OrZero(q.spread) >= 0.0 && forall x :: sqrt(x) >= 0.0
    ensures TradeCost(m, sqrt, q, traded) >= 0.0
  {
    var participation := if q.adv.Some? && q.adv.value > 0.0 then traded / q.adv.value else 0.0;
    var impact := m.impactCoef * OrZero(q.vol);
    MulMono(m.impactCoef, 0.0, OrZero(q.vol));
    MulMono(impact, 0.0, sqrt(participation));
    MulMono(traded, 0.0, OrZero(q.spread) / 2.0 + impact * sqrt(participation));
  }

  // ------------------------------------------------------------------------------ costs and carry

  function Dollars(weight: real, aum: real): real {
    Abs(weight) * aum
  }

  /** What is charged is what is traded: the dollars of the trade achieved, not of the one asked for. */
  lemma TradedIsAchieved(m: Model, prev: real, target: real, aum: real, q: Quote)
    requires aum > 0.0
    ensures Traded(m, prev, target, aum, q) == Dollars(Achieve(prev, target, aum, Cap(m, q)) - prev, aum)
  {
    hide Cap, Filled;
    var x := Filled((target - prev) * aum, Cap(m, q));
    DivMul(x, aum);
    AbsTimes(x / aum, aum);
  }

  /** The books differ in at most this name. */
  ghost predicate OnlyTrades(prev: seq<real>, target: seq<real>, k: nat) {
    |prev| == |target| && k < |prev| && forall i :: 0 <= i < |prev| && i != k ==> target[i] == prev[i]
  }

  /** A one-name trade at flat cost: its rate, in basis points, on the weight traded. */
  lemma FlatCostOfOneName(bps: real, sqrt: real -> real, prev: seq<real>, target: seq<real>, aum: real, liq: Option<seq<Quote>>, k: nat)
    requires OnlyTrades(prev, target, k) && aum > 0.0 && (liq.Some? ==> |liq.value| == |prev|)
    ensures Rebalance(FlatBps(bps), sqrt, prev, target, aum, liq).value == Fill(target, Abs(target[k] - prev[k]) * bps / 10000.0)
  {
    SumOfOne(AbsAll(Plus(target, Scale(-1.0, prev))), k);
  }

  lemma NothingTraded(m: Model, sqrt: real -> real, w: real, aum: real, q: Quote)
    requires m.Realistic? && Sane(m)
    ensures TradeCost(m, sqrt, q, Traded(m, w, w, aum, q)) == 0.0
  {
    CapUsable(m, q);
    assert (w - w) * aum == 0.0;
    hide OrZero;
  }

  /**
   A realistic one-name trade: half the spread, and the impact coefficient times volatility and the square root of the
   share of the daily volume, both on the dollars traded. A name without a known volume has no such share.
   */
  lemma RealisticCostOfOneName(m: Model, sqrt: real -> real, prev: seq<real>, target: seq<real>, aum: real, liq: seq<Quote>, k: nat)
    requires OnlyTrades(prev, target, k) && aum > 0.0 && |liq| == |prev| && m.Realistic? && Sane(m)
    ensures var r := Rebalance(m, sqrt, prev, target, aum, Some(liq)).value;
      r.cost * aum == SpreadPaid(liq[k], Dollars(r.weights[k] - prev[k], aum))
                    + Impact(m, sqrt, liq[k], Dollars(r.weights[k] - prev[k], aum))
  {
    hide Achieve, Cap, Traded, TradeCosts, TradeCost, Sum, SpreadPaid, Impact, Dollars;
    OneNameCosts(m, sqrt, prev, target, aum, liq, k);
    TradedIsAchieved(m, prev[k], target[k], aum, liq[k]);
    SpreadAndImpact(m, sqrt, liq[k], Traded(m, prev[k], target[k], aum, liq[k]));
    var costs := TradeCosts(m, sqrt, prev, target, aum, liq);
    var r := Rebalance(m, sqrt, prev, target, aum, Some(liq)).value;
    DivMul(Sum(costs), aum);
    assert r.weights[k] == Achieve(prev[k], target[k], aum, Cap(m, liq[k]));
    assert r.cost == Sum(costs) / aum;
    assert Dollars(r.weights[k] - prev[k], aum) == Traded(m, prev[k], target[k], aum, liq[k]);
  }

  function SpreadPaid(q: Quote, traded: real): real {
    OrZero(q.spread) / 2.0 * traded
  }

  function Impact(m: Model, sqrt: real -> real, q: Quote, traded: real): real
    requires m.Realistic?
  {
    var share := if q.adv.Some? && q.adv.value > 0.0 then traded / q.adv.value else 0.0;
    m.impactCoef * OrZero(q.vol) * sqrt(share) * traded
  }

  lemma OneNameCosts(m: Model, sqrt: real -> real, prev: seq<real>, target: seq<real>, aum: real, liq: seq<Quote>, k: nat)
    requires OnlyTrades(prev, target, k) && aum > 0.0 && |liq| == |prev| && m.Realistic? && Sane(m)
    ensures Sum(TradeCosts(m, sqrt, prev, target, aum, liq)) == TradeCost(m, sqrt, liq[k], Traded(m, prev[k], target[k], aum, liq[k]))
  {
    hide TradeCost, Traded;
    var costs := TradeCosts(m, sqrt, prev, target, aum, liq);
    forall i | 0 <= i < |costs| && i != k ensures costs[i] == 0.0 {
      NothingTraded(m, sqrt, prev[i], aum, liq[i]);
    }
    SumOfOne(costs, k);
  }

  lemma SpreadAndImpact(m: Model, sqrt: real -> real, q: Quote, traded: real)
    requires m.Realistic?
    ensures TradeCost(m, sqrt, q, traded) == SpreadPaid(q, traded) + Impact(m, sqrt, q, traded)
  {
    hide OrZero;
    var share := if q.adv.Some? && q.adv.value > 0.0 then traded / q.adv.value else 0.0;
    MulAdd(traded, OrZero(q.spread) / 2.0, m.impactCoef * OrZero(q.vol) * sqrt(share));
  }

  /** Nothing but this name is held. */
  ghost predicate OnlyHolds(w: seq<real>, k: nat) {
    k < |w| && forall i :: 0 <= i < |w| && i != k ==> w[i] == 0.0
  }

  /** One name held for a year's trading days: a long pays no borrow and finances what exceeds the capital, a short
      pays borrow on all of it as well. */
  lemma CarryOfOneName(m: Model, w: seq<real>, k: nat)
    requires OnlyHolds(w, k)
    ensures m.FlatBps? ==> Carry(m, w) == 0.0
    ensures m.Realistic? ==>
      Carry(m, w) * TRADING_DAYS * 10000.0
        == if w[k] >= 0.0 then Max(w[k] - 1.0, 0.0) * m.financingBps
           else -w[k] * m.borrowBps + Max(-w[k] - 1.0, 0.0) * m.financingBps
  {
    SumOfOne(Shorts(w), k);
    SumOfOne(AbsAll(w), k);
    hide Shorts, Sum;
    if m.Realistic? && w[k] >= 0.0 {
      assert Shorts(w)[k] == 0.0 by {
        ShortOf(w, k);
      }
    } else if m.Realistic? {
      ShortOf(w, k);
    }
  }

  lemma ShortOf(w: seq<real>, k: nat)
    requires k < |w|
    ensures Shorts(w)[k] == if w[k] >= 0.0 then 0.0 else -w[k]
  {}
}
