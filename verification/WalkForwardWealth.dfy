/**
 What a walk-forward run earns (research/mds/engine.py, `run`), measured in shares and prices instead of weights
 and returns: returns compound to price ratios, a row's net is the gain of the shares held, and a run that stays in
 one symbol is worth what the symbol is.
 */
module WalkForwardWealth {
  import opened Reals
  import opened Execution
  import opened Universe
  import opened WalkForward
  import opened WalkForwardTheorems

  // ----------------------------------------------------------------------------------- one symbol

  /** The symbol has a positive price on every row from a to b. */
  ghost predicate PricedFrom(px: History, i: nat, a: nat, b: nat) {
    forall r: nat :: a <= r <= b ==> Priced(px, r, i) && px[r].prices[i].value > 0.0
  }

  function PriceAt(px: History, r: nat, i: nat): real
    requires Priced(px, r, i)
  {
    px[r].prices[i].value
  }

  /** Compounds the symbol's returns over the rows after a up to b. */
  function Growth(px: History, i: nat, a: nat, b: nat): real {
    if b <= a then 1.0 else Growth(px, i, a, b - 1) * (1.0 + Return(px, b, i))
  }

  lemma ReturnIsTheMove(px: History, i: nat, s: nat)
    requires s > 0 && PricedFrom(px, i, s - 1, s)
    ensures Priced(px, s, i) && Priced(px, s - 1, i)
    ensures PriceAt(px, s - 1, i) * (1.0 + Return(px, s, i)) == PriceAt(px, s, i)
  {
    assert Priced(px, s, i) && Priced(px, s - 1, i);
    DivMul(PriceAt(px, s, i), PriceAt(px, s - 1, i));
  }

  lemma Chain(g: real, r: real, first: real, before: real, after: real)
    requires g * first == before && before * r == after
    ensures g * r * first == after
  {
    assert g * r * first == g * first * r;
  }

  /** Compounded returns are the ratio of the last price to the first. */
  lemma {:induction false} ReturnsCompound(px: History, i: nat, a: nat, b: nat)
    requires a <= b < |px| && PricedFrom(px, i, a, b)
    ensures Priced(px, a, i) && Priced(px, b, i) && Growth(px, i, a, b) * PriceAt(px, a, i) == PriceAt(px, b, i)
    decreases b
  {
    hide Return;
    assert Priced(px, a, i) && Priced(px, b, i);
    if a < b {
      ReturnsCompound(px, i, a, b - 1);
      ReturnIsTheMove(px, i, b);
      hide Growth, Priced;
      GrowthNext(px, i, a, b);
      Chain(Growth(px, i, a, b - 1), 1.0 + Return(px, b, i), PriceAt(px, a, i), PriceAt(px, b - 1, i), PriceAt(px, b, i));
    }
  }

  lemma GrowthNext(px: History, i: nat, a: nat, b: nat)
    requires a < b
    ensures Growth(px, i, a, b) == Growth(px, i, a, b - 1) * (1.0 + Return(px, b, i))
  {}

  // ---------------------------------------------------------------------------------- a row's net

  /** What the shares bought with weight w of one unit of wealth on row s - 1 gain over row s. */
  ghost function ShareGain(px: History, s: nat, i: nat, w: real): real
    requires ShapedPrices(px)
  {
    if s > 0 && Priced(px, s, i) && Priced(px, s - 1, i)
    then w / PriceAt(px, s - 1, i) * (PriceAt(px, s, i) - PriceAt(px, s - 1, i)) else 0.0
  }

  ghost predicate ShapedPrices(px: History) {
    forall r: nat, i: nat :: Priced(px, r, i) ==> px[r].prices[i].value > 0.0
  }

  lemma ShapedIsPositive(px: History, n: nat)
    requires Shaped(px, n)
    ensures ShapedPrices(px)
  {
    forall r: nat, i: nat | Priced(px, r, i) ensures px[r].prices[i].value > 0.0 {
      assert ShapedDay(px[r], n);
    }
  }

  ghost function ShareGains(px: History, s: nat, w: seq<real>): (r: seq<real>)
    requires ShapedPrices(px)
    ensures |r| == |w|
  {
    seq(|w|, i requires 0 <= i < |w| => ShareGain(px, s, i, w[i]))
  }

  lemma SharesGain(w: real, p: real, q: real)
    requires p > 0.0
    ensures (q / p - 1.0) * w == w / p * (q - p)
  {
    DivMul(q, p);
    DivMul(w, p);
    var x := w / p;
    assert (q / p - 1.0) * (x * p) == x * (q / p * p - p);
  }

  /** A row's net is what the shares held gain in price, less carry, and on a rebalance row less the trade's cost and
      with the result of what delisted. */
  lemma NetIsSharesGain(u: Setup, px: History, s: nat)
    requires Sound(u) && Shaped(px, u.n) && (u.exec.FlatBps? || u.liquid) && u.start <= s < |px|
    ensures ShapedPrices(px)
    ensures var t := Block(u, s);
      Net(u, px, s) == Sum(ShareGains(px, s, Held(u, px, t))) - Carry(u.exec, Held(u, px, t))
                       - (if s == t then FillAt(u, px, t).cost else 0.0) + (if s == t then DelistingPnl(u, px, t) else 0.0)
  {
    ShapedIsPositive(px, u.n);
    NetAndDrag(u, px, s);
    var w := Held(u, px, Block(u, s));
    hide Held, Net, Shaped, Sound, ShapedPrices, Sum, FillAt, DelistingPnl, Carry;
    forall i | 0 <= i < |w| ensures Gains(px, s, w)[i] == ShareGains(px, s, w)[i] {
      GainIs(px, s, i, w[i]);
    }
    assert Gains(px, s, w) == ShareGains(px, s, w);
  }

  lemma GainIs(px: History, s: nat, i: nat, w: real)
    requires ShapedPrices(px)
    ensures Gain(px, s, i, w) == ShareGain(px, s, i, w)
  {
    if s > 0 && Priced(px, s, i) && Priced(px, s - 1, i) {
      SharesGain(w, PriceAt(px, s - 1, i), PriceAt(px, s, i));
    }
  }

  // ---------------------------------------------------------------------------------------- the rows

  ghost predicate NothingMissing(d: Day) {
    None !in d.prices
  }

  lemma {:induction false} OnlyCompleteRows(h: History, d: Day)
    ensures multiset(DropMissing(h))[d] == if NothingMissing(d) then multiset(h)[d] else 0
  {
    if |h| > 0 {
      var n := |h| - 1;
      OnlyCompleteRows(h[..n], d);
      assert h == h[..n] + [h[n]];
    }
  }

  /** With a universe a run sees every row, and without one exactly the complete ones. */
  lemma PanelIs(u: Setup, h: History, d: Day)
    ensures multiset(Panel(u, h))[d] == if u.universe || NothingMissing(d) then multiset(h)[d] else 0
    ensures u.universe ==> Panel(u, h) == h
  {
    OnlyCompleteRows(h, d);
  }

  // -------------------------------------------------------------------------------- target and exits

  /** The target keeps the strategy's proportions among listed names, at its own gross or the cap if that is less. */
  lemma TargetKeepsProportions(u: Setup, px: History, t: nat, i: nat)
    requires Sound(u) && 0 < t <= |px| && i < u.n
    ensures var asked, g := OrZero(u.strategy(px, t)[i]), Gross(Raw(u, px, t));
      Target(u, px, t)[i] * g == if u.universe && !Listed(px, i, t - 1) then 0.0 else asked * Min(g, u.maxLeverage)
  {
    hide Gross, Listed;
    var g, asked := Gross(Raw(u, px, t)), Raw(u, px, t)[i];
    if g > u.maxLeverage {
      DivMul(u.maxLeverage, g);
      assert Capped(Raw(u, px, t), u.maxLeverage)[i] == u.maxLeverage / g * asked;
      Reorder(u.maxLeverage / g, asked, g);
    }
  }

  lemma Reorder(k: real, x: real, g: real)
    ensures k * x * g == x * (k * g)
  {}

  /** The only position to delist costs its weight times the delisting return; with none, nothing is lost. */
  lemma DelistingLossIs(u: Setup, px: History, t: nat, i: nat)
    requires Sound(u) && Shaped(px, u.n) && (u.exec.FlatBps? || u.liquid) && u.start <= t <= |px| && i < u.n
    requires forall j :: 0 <= j < u.n && j != i ==> !Charged(u, px, t, j)
    ensures DelistingPnl(u, px, t) == if Charged(u, px, t, i) then Before(u, px, t)[i] * u.delistingReturn else 0.0
  {
    hide Before, FillAt, Listed, Shaped, Sum;
    if u.universe {
      var prev, row := Before(u, px, t), Row(px, t - 1, u.n);
      forall j | 0 <= j < u.n ensures Exits(prev, row)[j] == if Charged(u, px, t, j) then prev[j] else 0.0 {}
      SumOfOne(Exits(prev, row), i);
    }
  }

  /** Rebalances fall every `step` rows from the first, and each is held until the next. */
  lemma {:induction false} BlockIsOnSchedule(u: Setup, s: nat) returns (k: nat)
    requires u.step > 0 && u.start <= s
    ensures Block(u, s) == u.start + k * u.step && Block(u, s) <= s < Block(u, s) + u.step
  {
    k := 0;
    if s >= u.start + u.step {
      var before := BlockIsOnSchedule(u, s - u.step);
      k := before + 1;
      OneStepOn(before, u.step);
    }
  }

  lemma OneStepOn(k: nat, step: nat)
    ensures (k + 1) * step == k * step + step
  {}

  // ------------------------------------------------------------------------------- staying in one symbol

  function Wealth(u: Setup, px: History, end: nat): real
    requires Sound(u) && Shaped(px, u.n) && (u.exec.FlatBps? || u.liquid) && end <= |px|
  {
    if end <= u.start then 1.0 else Wealth(u, px, end - 1) * (1.0 + Net(u, px, end - 1))
  }

  /** All of it in symbol k. */
  function AllIn(n: nat, k: nat): (w: seq<real>)
    ensures |w| == n
  {
    seq(n, i => if i == k then 1.0 else 0.0)
  }

  /** A run at flat cost whose strategy always asks for all of symbol k, which has a price throughout. */
  ghost predicate StaysIn(u: Setup, px: History, k: nat) {
    && Sound(u) && Shaped(px, u.n) && k < u.n && u.exec.FlatBps? && u.maxLeverage >= 1.0
    && (forall t :: u.start <= t < |px| ==> Raw(u, px, t) == AllIn(u.n, k))
    && (forall r: nat :: u.start - 1 <= r < |px| ==> Priced(px, r, k))
  }

  lemma AllInGross(n: nat, k: nat)
    requires k < n
    ensures Gross(AllIn(n, k)) == 1.0
  {
    SumOfOne(AbsAll(AllIn(n, k)), k);
  }

  lemma StaysAllIn(u: Setup, px: History, k: nat, t: nat)
    requires StaysIn(u, px, k) && u.start <= t < |px|
    ensures Held(u, px, t) == AllIn(u.n, k) && Target(u, px, t) == AllIn(u.n, k) && Listed(px, k, t - 1)
  {
    AllInGross(u.n, k);
    assert Priced(px, t - 1, k);
    assert Listed(px, k, t - 1);
    var row := Row(px, t - 1, u.n);
    assert Target(u, px, t) == AllIn(u.n, k) by {
      hide Gross, Listed, Priced, Shaped;
      if u.universe {
        assert row[k];
        assert Masked(AllIn(u.n, k), row) == AllIn(u.n, k);
      }
    }
    hide Target, Turnover, Shaped, Listed, Priced, StaysIn;
    assert u.exec.FlatBps? by {
      StaysSound(u, px, k);
    }
    StepIs(u, px, t);
  }

  lemma BeforeIsHeld(u: Setup, px: History, k: nat, t: nat)
    requires StaysIn(u, px, k) && u.start <= t < |px|
    ensures Before(u, px, t) == if t < u.start + u.step then Zeros(u.n) else AllIn(u.n, k)
  {
    hide FillAt, Priced, Shaped;
    if t >= u.start + u.step {
      StaysAllIn(u, px, k, t - u.step);
    }
  }

  /** Only the first purchase costs anything. */
  lemma OnePurchase(u: Setup, px: History, k: nat, t: nat)
    requires StaysIn(u, px, k) && u.start <= t < |px|
    ensures FillAt(u, px, t).cost == if t < u.start + u.step then u.exec.bps / 10000.0 else 0.0
  {
    StaysAllIn(u, px, k, t);
    BeforeIsHeld(u, px, k, t);
    StepIs(u, px, t);
    var prev, target := Before(u, px, t), Target(u, px, t);
    hide Target, Before, FillAt, Shaped, Listed, Priced, Rebalance, StaysIn;
    StaysSound(u, px, k);
    FlatCostOfOneName(u.exec.bps, u.sqrt, prev, target, u.aum, Liquidity(u, px, t), k);
  }

  lemma NothingDelists(u: Setup, px: History, k: nat, t: nat)
    requires StaysIn(u, px, k) && u.start <= t < |px|
    ensures DelistingPnl(u, px, t) == 0.0
  {
    BeforeIsHeld(u, px, k, t);
    StaysAllIn(u, px, k, t);
    hide Before, FillAt, Shaped, Listed;
    DelistingLossIs(u, px, t, k);
  }

  lemma AllInGains(px: History, s: nat, n: nat, k: nat)
    requires k < n
    ensures Sum(Gains(px, s, AllIn(n, k))) == Return(px, s, k)
  {
    hide Return;
    SumOfOne(Gains(px, s, AllIn(n, k)), k);
  }

  lemma FirstRows(u: Setup, s: nat)
    requires u.step > 0 && u.start <= s < u.start + u.step
    ensures Block(u, s) == u.start
  {}

  /** Each row earns the symbol's return, the first less what it cost to buy in. */
  lemma NetIsReturn(u: Setup, px: History, k: nat, s: nat)
    requires StaysIn(u, px, k) && u.start <= s < |px|
    ensures Net(u, px, s) == Return(px, s, k) - (if s == u.start then u.exec.bps / 10000.0 else 0.0)
  {
    var t := Block(u, s);
    StaysSound(u, px, k);
    StaysAllIn(u, px, k, t);
    OnePurchase(u, px, k, t);
    NothingDelists(u, px, k, t);
    FirstBlock(u);
    if s < u.start + u.step {
      FirstRows(u, s);
    }
    AllInGains(px, s, u.n, k);
    NetIs(u, px, s);
    hide FillAt, Sum, Gains, DelistingPnl, Return, Shaped, Net;
  }

  /** Wealth `w` times the first price is the last one. */
  ghost predicate Tracks(w: real, first: real, last: real) {
    w * first == last
  }

  /** Its wealth follows the symbol's price, from the row before the first rebalance on. */
  lemma StayingInFollowsPrice(u: Setup, px: History, k: nat, end: nat)
    requires StaysIn(u, px, k) && u.exec == FlatBps(0.0) && u.start <= end <= |px|
    ensures Priced(px, u.start - 1, k) && Priced(px, end - 1, k)
    ensures Wealth(u, px, end) * PriceAt(px, u.start - 1, k) == PriceAt(px, end - 1, k)
  {
    hide Net, StaysIn;
    StaysSound(u, px, k);
    WealthTracks(u, px, k, end);
  }

  lemma {:induction false} WealthTracks(u: Setup, px: History, k: nat, end: nat)
    requires StaysIn(u, px, k) && u.exec == FlatBps(0.0) && u.start <= end <= |px| && Sound(u) && Shaped(px, u.n)
    ensures Priced(px, u.start - 1, k) && Priced(px, end - 1, k)
    ensures Tracks(Wealth(u, px, end), PriceAt(px, u.start - 1, k), PriceAt(px, end - 1, k))
    decreases end
  {
    hide *;
    StaysSound(u, px, k);
    StaysPriced(u, px, k, u.start - 1);
    StaysPriced(u, px, k, end - 1);
    if end > u.start {
      StaysPriced(u, px, k, end - 2);
      WealthTracks(u, px, k, end - 1);
      TracksNext(u, px, k, end, PriceAt(px, u.start - 1, k));
    } else {
      NothingEarned(u, px, end, PriceAt(px, end - 1, k));
    }
  }

  lemma NothingEarned(u: Setup, px: History, end: nat, price: real)
    requires Sound(u) && Shaped(px, u.n) && (u.exec.FlatBps? || u.liquid) && end <= |px| && end <= u.start
    ensures Tracks(Wealth(u, px, end), price, price)
  {}

  lemma TracksNext(u: Setup, px: History, k: nat, end: nat, first: real)
    requires StaysIn(u, px, k) && u.exec == FlatBps(0.0) && u.start < end <= |px| && Shaped(px, u.n)
    requires Priced(px, end - 1, k) && Priced(px, end - 2, k)
    requires Tracks(Wealth(u, px, end - 1), first, PriceAt(px, end - 2, k))
    ensures Tracks(Wealth(u, px, end), first, PriceAt(px, end - 1, k))
  {
    hide *;
    StaysSound(u, px, k);
    NetIsReturn(u, px, k, end - 1);
    PricedBoth(u, px, k, end - 1);
    WealthGrows(u, px, k, end);
    MoveTracks(px, k, end - 1);
    Follow(Wealth(u, px, end - 1), 1.0 + Return(px, end - 1, k), first, PriceAt(px, end - 2, k), PriceAt(px, end - 1, k),
           Wealth(u, px, end));
  }

  lemma WealthGrows(u: Setup, px: History, k: nat, end: nat)
    requires Sound(u) && Shaped(px, u.n) && (u.exec.FlatBps? || u.liquid) && u.start < end <= |px|
    requires Net(u, px, end - 1) == Return(px, end - 1, k)
    ensures Tracks(Wealth(u, px, end - 1), 1.0 + Return(px, end - 1, k), Wealth(u, px, end))
  {
    hide Net, Return, Shaped, Sound;
  }

  lemma MoveTracks(px: History, i: nat, s: nat)
    requires s > 0 && PricedFrom(px, i, s - 1, s) && Priced(px, s, i) && Priced(px, s - 1, i)
    ensures Tracks(1.0 + Return(px, s, i), PriceAt(px, s - 1, i), PriceAt(px, s, i))
  {
    ReturnIsTheMove(px, i, s);
  }

  lemma Follow(before: real, r: real, first: real, last: real, price: real, wealth: real)
    requires Tracks(before, r, wealth) && Tracks(before, first, last) && Tracks(r, last, price)
    ensures Tracks(wealth, first, price)
  {
    Chain(before, r, first, last, price);
  }

  lemma StaysSound(u: Setup, px: History, k: nat)
    requires StaysIn(u, px, k)
    ensures Sound(u) && Shaped(px, u.n) && u.exec.FlatBps? && u.start > 0
  {}

  lemma StaysPriced(u: Setup, px: History, k: nat, r: nat)
    requires StaysIn(u, px, k) && u.start - 1 <= r < |px|
    ensures Priced(px, r, k)
  {}

  lemma PricedBoth(u: Setup, px: History, k: nat, s: nat)
    requires StaysIn(u, px, k) && u.start <= s < |px|
    ensures PricedFrom(px, k, s - 1, s)
  {
    assert Priced(px, s, k) && Priced(px, s - 1, k);
    ShapedIsPositive(px, u.n);
  }
}
