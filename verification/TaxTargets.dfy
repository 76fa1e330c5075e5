/**
 Where a day's trades leave the book (research/mds/taxaware.py:117-135): every priced symbol ends at its target weight
 of the book's value, to within the smallest trade, and no holding is ever short.
 */
module TaxTargets {
  import opened Reals
  import opened TaxLots
  import opened TaxSimulation

  /** The dollars symbol c should be worth: its weight of the book's value, and nothing where either is negative. */
  function TargetValue(weight: real, value: real): real {
    Max(weight, 0.0) * Max(value, 0.0)
  }

  /** The holding is at its target, or off it by no more than the smallest trade. */
  ghost predicate OnTarget(shares: real, price: real, weight: real, value: real) {
    Abs(shares * price - TargetValue(weight, value)) <= MIN_TRADE * price
  }

  function NewShares(held: real, a: Action): real {
    match a
    case Hold => held
    case Sell(qty, _) => held - qty
    case Buy(qty, _) => held + qty
  }

  lemma TargetShares(weight: real, value: real, price: real) returns (target: real)
    requires price > 0.0
    ensures target == Max(weight, 0.0) * value / price && target * price == Max(weight, 0.0) * value
    ensures value >= 0.0 ==> target >= 0.0 && target * price == TargetValue(weight, value)
    ensures value < 0.0 ==> target <= 0.0 && TargetValue(weight, value) == 0.0
  {
    var dollars := Max(weight, 0.0) * value;
    target := dollars / price;
    DivMul(dollars, price);
    if value >= 0.0 {
      MulMono(Max(weight, 0.0), 0.0, value);
      NotNegativeOver(dollars, price);
    } else {
      MulMono(Max(weight, 0.0), value, 0.0);
      NotNegativeOver(-dollars, price);
      assert -dollars / price == -target;
    }
  }

  lemma Near(shares: real, target: real, price: real)
    requires price > 0.0 && Abs(shares - target) <= MIN_TRADE
    ensures Abs(shares * price - target * price) <= MIN_TRADE * price
  {
    MulAdd(price, shares, target);
    Within(shares * price - target * price, shares - target, price, MIN_TRADE);
  }

  lemma Within(gap: real, d: real, price: real, limit: real)
    requires price > 0.0 && gap == price * d && Abs(d) <= limit
    ensures Abs(gap) <= limit * price
  {
    if d >= 0.0 {
      MulMono(price, d, limit);
      MulMono(price, 0.0, d);
    } else {
      MulMono(price, -limit, d);
      MulMono(price, d, 0.0);
      assert price * -limit == -(limit * price);
    }
  }

  /** Buys reach the target exactly, sales too or sell out, and what is left alone is within the smallest trade. */
  lemma DecisionReachesTarget(held: real, price: real, weight: real, value: real)
    requires price > 0.0 && held >= 0.0
    ensures var a := Decide(held, Some(price), weight, value); var after := NewShares(held, a);
      && OnTarget(after, price, weight, value) && after >= 0.0
      && (a.Buy? ==> after * price == TargetValue(weight, value))
      && (a.Sell? && value >= 0.0 ==> after * price == TargetValue(weight, value))
  {
    var target := TargetShares(weight, value, price);
    assert Delta(held, weight, value, price) == target - held;
    var aim := if value >= 0.0 then target else 0.0;
    assert aim * price == TargetValue(weight, value);
    hide TargetValue, Delta;
    var a := Decide(held, Some(price), weight, value);
    var after := NewShares(held, a);
    Lands(held, target, aim, price, weight, value);
    Near(after, aim, price);
  }

  lemma Lands(held: real, target: real, aim: real, price: real, weight: real, value: real)
    requires price > 0.0 && held >= 0.0 && Delta(held, weight, value, price) == target - held
    requires if value >= 0.0 then target == aim && aim >= 0.0 else target <= 0.0 && aim == 0.0
    ensures var a := Decide(held, Some(price), weight, value); var after := NewShares(held, a);
      && Abs(after - aim) <= MIN_TRADE && after >= 0.0
      && (a.Buy? ==> after == aim) && (a.Sell? && value >= 0.0 ==> after == aim)
  {
    hide Delta;
  }

  /** A symbol's trade changes no other holding, and changes its own as decided. */
  lemma TradeMoves(b: Book, c: nat, day: Day, value: real, m: Policy, j: nat)
    requires Shaped(b, |b.lots|) && ShapedDay(day, |b.lots|) && c < |b.lots| && j < |b.lots|
    ensures var a := Decide(b.shares[c], day.prices[c], day.weights[c], value);
      Trade(b, c, day, value, m).shares[j] == if j == c then NewShares(b.shares[c], a) else b.shares[j]
  {
    hide Decide, Delivered, Live;
  }

  lemma UnpricedHolds(held: real, price: Option<real>, weight: real, value: real)
    requires price.None? || price.value <= 0.0
    ensures NewShares(held, Decide(held, price, weight, value)) == held
  {}

  /** What the day's trades leave of one holding. */
  ghost predicate Settled(before: real, after: real, price: Option<real>, weight: real, value: real) {
    && after >= 0.0
    && if price.Some? && price.value > 0.0 then OnTarget(after, price.value, weight, value) else after == before
  }

  lemma {:induction false} TradesReachTargets(b: Book, c: nat, day: Day, value: real, m: Policy, j: nat)
    requires Shaped(b, |b.lots|) && ShapedDay(day, |b.lots|) && c <= |b.lots| && j < |b.lots| && b.shares[j] >= 0.0
    ensures var after := TradeFrom(b, c, day, value, m).shares[j];
      if j < c then after == b.shares[j] else Settled(b.shares[j], after, day.prices[j], day.weights[j], value)
    decreases |b.lots| - c
  {
    hide Decide, NewShares, Trade, OnTarget;
    if c < |b.lots| {
      TradeMoves(b, c, day, value, m, j);
      if j == c {
        if day.prices[c].Some? && day.prices[c].value > 0.0 {
          DecisionReachesTarget(b.shares[c], day.prices[c].value, day.weights[c], value);
        } else {
          UnpricedHolds(b.shares[c], day.prices[c], day.weights[c], value);
        }
      }
      KeepsShape(b, c, day, value, m);
      TradesReachTargets(Trade(b, c, day, value, m), c + 1, day, value, m, j);
    }
  }

  lemma KeepsShape(b: Book, c: nat, day: Day, value: real, m: Policy)
    requires Shaped(b, |b.lots|) && ShapedDay(day, |b.lots|) && c < |b.lots|
    ensures Shaped(Trade(b, c, day, value, m), |b.lots|)
  {
    hide Decide, Delivered, Live;
  }

  lemma {:induction false} NeverShort(days: seq<Day>, t: nat, n: nat, capital: real, m: Policy, j: nat)
    requires t <= |days| && ShapedDays(days, n) && j < n
    ensures RunTo(days, t, n, capital, m).shares[j] >= 0.0
  {
    if t > 0 {
      NeverShort(days, t - 1, n, capital, m, j);
      var b, day := RunTo(days, t - 1, n, capital, m), days[t - 1];
      hide TradeFrom, OnTarget;
      TradesReachTargets(b, 0, day, b.cash + Marked(b.shares, day.prices, n), m, j);
    }
  }

  /** What each holding is worth at the day's prices. */
  function Values(shares: seq<real>, prices: seq<Option<real>>): seq<real>
    requires |shares| == |prices|
  {
    seq(|shares|, i requires 0 <= i < |shares| => if prices[i].Some? then shares[i] * prices[i].value else 0.0)
  }

  lemma {:induction false} MarkedIsTheValue(shares: seq<real>, prices: seq<Option<real>>, n: nat)
    requires n <= |shares| == |prices|
    ensures Marked(shares, prices, n) == Sum(Values(shares, prices)[..n])
  {
    if n > 0 {
      MarkedIsTheValue(shares, prices, n - 1);
      assert Values(shares, prices)[..n][..n - 1] == Values(shares, prices)[..n - 1];
    }
  }

  /**
   After every date of every run each holding is worth its target weight of what the book was worth before the date's
   trades, to within the smallest trade; a symbol without a positive price keeps its shares.
   */
  lemma DaysEndOnTarget(days: seq<Day>, t: nat, n: nat, capital: real, m: Policy, j: nat)
    requires t < |days| && ShapedDays(days, n) && j < n
    ensures var before, after, day := RunTo(days, t, n, capital, m), RunTo(days, t + 1, n, capital, m), days[t];
      Settled(before.shares[j], after.shares[j], day.prices[j], day.weights[j],
              before.cash + Sum(Values(before.shares, day.prices)))
  {
    NeverShort(days, t, n, capital, m, j);
    var b, day := RunTo(days, t, n, capital, m), days[t];
    MarkedIsTheValue(b.shares, day.prices, n);
    assert Values(b.shares, day.prices)[..n] == Values(b.shares, day.prices);
    hide TradeFrom, Settled;
    TradesReachTargets(b, 0, day, b.cash + Marked(b.shares, day.prices, n), m, j);
  }
}
