/**
 What the simulator reports at the end of a run (research/mds/taxaware.py, `simulate` and `compare_methods`):
 realized plus unrealized gain is the money made, plus the basis of whatever has no price on the last date. So
 no lot method changes the total as long as every position held has a price, whether or not the run ends in a
 liquidation.
 */
module TaxReport {
  import opened Reals
  import opened TaxLots
  import opened TaxSales
  import opened TaxSimulation
  import opened TaxTheorems

  ghost predicate AllFinite(prices: seq<Option<real>>) {
    forall c :: 0 <= c < |prices| ==> prices[c].Some?
  }

  lemma {:induction false} BasisCeiling(lots: seq<Lot>, top: real)
    requires AllLive(lots) && CostsIn(lots, top)
    ensures 0.0 <= Total(Basis, lots) <= top * Total(Shares, lots)
  {
    if |lots| > 0 {
      assert lots == lots[..|lots| - 1] + [lots[|lots| - 1]];
      BasisCeiling(lots[..|lots| - 1], top);
      BasisCeilingSnoc(lots[..|lots| - 1], lots[|lots| - 1], top);
    }
  }

  lemma BasisCeilingSnoc(init: seq<Lot>, last: Lot, top: real)
    requires 0.0 <= Total(Basis, init) <= top * Total(Shares, init)
    requires 0.0 <= last.shares && 0.0 <= last.cost <= top
    ensures 0.0 <= Total(Basis, init + [last]) <= top * Total(Shares, init + [last])
  {
    hide Total;
    TotalSnoc(Basis, init, last);
    TotalSnoc(Shares, init, last);
    LotBasis(last, top);
    hide *;
    MulSum(top, Total(Shares, init + [last]), Total(Shares, init), last.shares);
  }

  lemma LotBasis(lot: Lot, top: real)
    requires 0.0 <= lot.shares && 0.0 <= lot.cost <= top
    ensures 0.0 <= Weigh(Basis, lot) <= top * lot.shares
  {
    MulMono(lot.shares, lot.cost, top);
    MulMono(lot.shares, 0.0, lot.cost);
  }

  /** A position too small to be reported is worth, and cost, next to nothing. */
  lemma ClosedPosition(lots: seq<Lot>, held: real, t: nat, top: real, price: real, e: real)
    requires t > 0 && Sound(lots, held, t, top) && held <= DUST && -top <= price <= top && e == 3.0 * (top * DustOf(t))
    ensures Abs(MarketValue(held, price) - Total(Basis, lots)) <= e
  {
    BasisCeiling(lots, top);
    DustOfNext(t - 1);
    hide Total;
    SmallChange(held, price, top, DustOf(t), Total(Shares, lots), Total(Basis, lots), e);
  }

  lemma SmallChange(held: real, price: real, top: real, d: real, shares: real, basis: real, e: real)
    requires 0.0 <= held <= d && -top <= price <= top && shares <= 2.0 * d
    requires 0.0 <= basis <= top * shares && e == 3.0 * (top * d)
    ensures Abs(held * price - basis) <= e
  {
    MulMono(top, shares, 2.0 * d);
    MulMono(top, held, d);
    MulMono(held, price, top);
    MulMono(held, -top, price);
    var hp, td := held * price, top * d;
    assert -td <= hp <= td && basis <= 2.0 * td;
  }

  /** What position c contributes to the report, to market value and to the basis held. */
  lemma OnePosition(b: Book, prices: seq<Option<real>>, c: nat, t: nat, top: real, e: real)
    requires c < |b.lots| == |prices| && prices[c].Some? && t > 0 && e == 3.0 * (top * DustOf(t))
    requires SoundTo(b, t, 0, top) && -top <= prices[c].value <= top
    ensures var gain := UnrealizedTo(b, prices, c + 1) - UnrealizedTo(b, prices, c);
      var worth := Marked(b.shares, prices, c + 1) - Marked(b.shares, prices, c);
      Abs(gain - (worth - Total(Basis, b.lots[c]))) <= e
  {
    assert Sound(b.lots[c], b.shares[c], t, top);
    NonNegative(t, top, e);
    hide Total, DustOf, MarketValue;
    if b.shares[c] <= DUST {
      ClosedPosition(b.lots[c], b.shares[c], t, top, prices[c].value, e);
    }
  }

  /** The basis held in the first n symbols that have no price. */
  ghost function UnpricedBasis(b: Book, prices: seq<Option<real>>, n: nat): real
    requires n <= |b.lots| && n <= |prices|
  {
    if n == 0 then 0.0
    else UnpricedBasis(b, prices, n - 1) + (if prices[n - 1].None? then Total(Basis, b.lots[n - 1]) else 0.0)
  }

  lemma {:induction false} AllPricedNoBasis(b: Book, prices: seq<Option<real>>, n: nat)
    requires n <= |b.lots| && n <= |prices| && AllFinite(prices)
    ensures UnpricedBasis(b, prices, n) == 0.0
  {
    if n > 0 {
      AllPricedNoBasis(b, prices, n - 1);
    }
  }

  ghost function Multiple(n: nat, e: real): real {
    n as real * e
  }

  /** What the first k positions contribute to the report beyond what they are worth above their basis. */
  ghost function Excess(b: Book, prices: seq<Option<real>>, k: nat): real
    requires k <= |b.lots| == |prices| && |b.lots| == |b.shares|
  {
    UnrealizedTo(b, prices, k) - (Marked(b.shares, prices, k) - Sum(Totals(Basis, b)[..k]) + UnpricedBasis(b, prices, k))
  }

  lemma ExcessNext(b: Book, prices: seq<Option<real>>, c: nat, t: nat, top: real, e: real)
    requires c < |b.lots| == |prices| && t > 0 && top >= 0.0 && e == 3.0 * (top * DustOf(t)) && SoundTo(b, t, 0, top)
    requires prices[c].Some? ==> -top <= prices[c].value <= top
    ensures Abs(Excess(b, prices, c + 1) - Excess(b, prices, c)) <= e
  {
    assert Sound(b.lots[c], b.shares[c], t, top);
    NonNegative(t, top, e);
    if prices[c].Some? {
      OnePosition(b, prices, c, t, top, e);
    }
    hide Total, DustOf, MarketValue, Sum, SoundTo;
    assert Totals(Basis, b)[..c + 1] == Totals(Basis, b)[..c] + [Total(Basis, b.lots[c])];
    SumSnoc(Totals(Basis, b)[..c], Total(Basis, b.lots[c]));
  }

  lemma {:induction false} ExcessIsDust(b: Book, prices: seq<Option<real>>, k: nat, t: nat, top: real, e: real)
    requires k <= |b.lots| == |prices| && t > 0 && top >= 0.0 && e == 3.0 * (top * DustOf(t)) && SoundTo(b, t, 0, top)
    requires forall c :: 0 <= c < |prices| && prices[c].Some? ==> -top <= prices[c].value <= top
    ensures Abs(Excess(b, prices, k)) <= Multiple(k, e)
  {
    if k > 0 {
      var c := k - 1;
      ExcessIsDust(b, prices, c, t, top, e);
      ExcessNext(b, prices, c, t, top, e);
      hide Excess, Multiple, SoundTo, DustOf;
      NextMultiple(c, e);
      AbsAdd(Excess(b, prices, c), Excess(b, prices, k) - Excess(b, prices, c), Multiple(c, e), e);
    }
  }

  lemma AbsAdd(x: real, y: real, a: real, b: real)
    requires Abs(x) <= a && Abs(y) <= b
    ensures Abs(x + y) <= a + b
  {}

  lemma NonNegative(t: nat, top: real, e: real)
    requires top >= 0.0 && e == 3.0 * (top * DustOf(t))
    ensures e >= 0.0
  {
    MulMono(top, 0.0, DustOf(t));
  }

  lemma NextMultiple(c: nat, e: real)
    ensures Multiple(c + 1, e) == Multiple(c, e) + e
  {}

  ghost function Reported(b: Book, prices: seq<Option<real>>): real
    requires |prices| == |b.lots| == |b.shares|
  {
    Realized(b) + UnrealizedTo(b, prices, |prices|)
  }

  /** What the account is worth above its starting capital. */
  ghost function MoneyMade(b: Book, prices: seq<Option<real>>, capital: real): real
    requires |prices| == |b.lots| == |b.shares|
  {
    b.cash + Marked(b.shares, prices, |prices|) - capital
  }

  lemma ReportOfSoundBook(b: Book, prices: seq<Option<real>>, t: nat, n: nat, capital: real, top: real)
    requires |b.lots| == |prices| == n && t > 0 && top >= 0.0 && SoundTo(b, t, 0, top) && Conserved(b, capital, t * n, top)
    requires forall c :: 0 <= c < |prices| && prices[c].Some? ==> -top <= prices[c].value <= top
    ensures Abs(Reported(b, prices) - MoneyMade(b, prices, capital) - UnpricedBasis(b, prices, n)) <= 6.0 * DustMoney(top, t, n)
  {
    var e := 3.0 * (top * DustOf(t));
    SoundBooks(b, t, capital, n, top);
    ExcessIsDust(b, prices, n, t, top, e);
    assert Totals(Basis, b)[..n] == Totals(Basis, b);
    ThreeDusts(top, t, n, e);
    hide SoundTo, Conserved, DustMoney, DustOf, UnrealizedTo, Marked, Sum, Realized, UnpricedBasis, Multiple;
    AbsAdd(Excess(b, prices, n), Gap(b, capital), 3.0 * DustMoney(top, t, n), 3.0 * DustMoney(top, t, n));
  }

  lemma ThreeDusts(top: real, t: nat, n: nat, e: real)
    requires e == 3.0 * (top * DustOf(t))
    ensures Multiple(n, e) == 3.0 * DustMoney(top, t, n)
  {
    var d := DustOf(t);
    assert n as real * (3.0 * (top * d)) == 3.0 * (top * (n as real * d));
  }

  // ------------------------------------------------------------------------------------ liquidation

  lemma CloseOutKeeps(b: Book, c: nat, t: nat, day: Day, m: Policy, capital: real, trades: nat, top: real)
    requires c < |b.lots| == |day.prices| && PricesIn(day, top) && top >= 0.0
    requires SoundTo(b, t, c, top) && Conserved(b, capital, trades, top)
    ensures SoundTo(CloseOut(b, c, day, m), t, c + 1, top) && Conserved(CloseOut(b, c, day, m), capital, trades + 1, top)
  {
    if b.shares[c] > DUST && day.prices[c].Some? {
      var price := day.prices[c].value;
      hide Conserved, SoundTo;
      SellKeeps(b, t, c, b.shares[c], price, day.date, m, capital, trades, top);
    } else {
      IdleKeeps(b, t, c, capital, trades, top);
    }
  }

  /** Closing sales keep the books: they count as one more day. */
  lemma {:induction false} LiquidationKeeps(b: Book, c: nat, t: nat, day: Day, m: Policy, capital: real, trades: nat, top: real)
    requires Shaped(b, |b.lots|) && ShapedDay(day, |b.lots|) && c <= |b.lots| && PricesIn(day, top) && top >= 0.0
    requires SoundTo(b, t, 0, top) && Conserved(b, capital, trades, top)
    ensures SoundTo(LiquidateTo(b, c, day, m), t, c, top)
    ensures Conserved(LiquidateTo(b, c, day, m), capital, trades + c, top)
  {
    hide CloseOut, Conserved, SoundTo, PricesIn;
    if c > 0 {
      LiquidationKeeps(b, c - 1, t, day, m, capital, trades, top);
      var prev := LiquidateTo(b, c - 1, day, m);
      CloseOutKeeps(prev, c - 1, t, day, m, capital, trades + (c - 1), top);
    }
  }

  lemma CloseOutSamePath(a: Book, b: Book, c: nat, day: Day, m: Policy, m': Policy)
    requires SamePath(a, b) && c < |a.lots| == |day.prices|
    ensures SamePath(CloseOut(a, c, day, m), CloseOut(b, c, day, m'))
  {
    hide Delivered, Live;
  }

  lemma {:induction false} LiquidationSamePath(a: Book, b: Book, c: nat, day: Day, m: Policy, m': Policy)
    requires SamePath(a, b) && ShapedDay(day, |a.lots|) && c <= |a.lots|
    ensures SamePath(LiquidateTo(a, c, day, m), LiquidateTo(b, c, day, m'))
  {
    if c > 0 {
      hide CloseOut;
      LiquidationSamePath(a, b, c - 1, day, m, m');
      CloseOutSamePath(LiquidateTo(a, c - 1, day, m), LiquidateTo(b, c - 1, day, m'), c - 1, day, m, m');
    }
  }

  lemma ClosesOut(b: Book, c: nat, day: Day, m: Policy)
    requires c < |b.lots| == |b.shares| && c < |day.prices|
    ensures var r := CloseOut(b, c, day, m);
      && (day.prices[c].Some? ==> r.shares[c] <= DUST)
      && (forall j :: 0 <= j < |b.shares| && j != c ==> r.shares[j] == b.shares[j])
  {
    hide Delivered, Live;
  }

  /** After a liquidation no position with a price is left open. */
  lemma {:induction false} LiquidatedIsClosed(b: Book, c: nat, day: Day, m: Policy)
    requires Shaped(b, |b.lots|) && ShapedDay(day, |b.lots|) && c <= |b.lots|
    ensures forall j :: 0 <= j < c && day.prices[j].Some? ==> LiquidateTo(b, c, day, m).shares[j] <= DUST
  {
    if c > 0 {
      hide CloseOut;
      LiquidatedIsClosed(b, c - 1, day, m);
      ClosesOut(LiquidateTo(b, c - 1, day, m), c - 1, day, m);
    }
  }

  lemma {:induction false} NothingUnrealized(b: Book, prices: seq<Option<real>>, n: nat)
    requires n <= |b.lots| && n <= |b.shares| && n <= |prices|
    requires forall j :: 0 <= j < n && prices[j].Some? ==> b.shares[j] <= DUST
    ensures UnrealizedTo(b, prices, n) == 0.0
  {
    if n > 0 {
      NothingUnrealized(b, prices, n - 1);
    }
  }

  // --------------------------------------------------------------------------------------- a report

  /** Whatever has no price is not held, or no more than dust of it. */
  ghost predicate HeldArePriced(b: Book, prices: seq<Option<real>>) {
    forall c :: 0 <= c < |prices| && c < |b.shares| && prices[c].None? ==> b.shares[c] <= DUST
  }

  /** Positions of no more than dust have no more than dust for a basis. */
  lemma {:induction false} UnpricedIsDust(b: Book, prices: seq<Option<real>>, k: nat, t: nat, top: real, e: real)
    requires k <= |b.lots| == |prices| && t > 0 && top >= 0.0 && e == 3.0 * (top * DustOf(t)) && SoundTo(b, t, 0, top)
    requires HeldArePriced(b, prices)
    ensures Abs(UnpricedBasis(b, prices, k)) <= Multiple(k, e)
  {
    if k > 0 {
      var c := k - 1;
      UnpricedIsDust(b, prices, c, t, top, e);
      assert Sound(b.lots[c], b.shares[c], t, top);
      NonNegative(t, top, e);
      if prices[c].None? {
        ClosedPosition(b.lots[c], b.shares[c], t, top, 0.0, e);
      }
      hide Total, DustOf, Multiple, SoundTo;
      NextMultiple(c, e);
    }
  }

  /** The book `simulate` ends with. */
  ghost function Final(days: seq<Day>, n: nat, capital: real, m: Policy, liquidate: bool): (b: Book)
    requires |days| > 0 && ShapedDays(days, n)
    ensures Shaped(b, n)
  {
    var held := RunTo(days, |days|, n, capital, m);
    if liquidate then LiquidateTo(held, n, days[|days| - 1], m) else held
  }

  /** The days of trading a report has behind it: a liquidation is one more. */
  ghost function Sessions(days: seq<Day>, liquidate: bool): nat {
    if liquidate then |days| + 1 else |days|
  }

  lemma FinalKeeps(days: seq<Day>, n: nat, capital: real, m: Policy, liquidate: bool, top: real)
    requires |days| > 0 && ShapedDays(days, n) && AllPricesIn(days, top) && top >= 0.0
    ensures SoundTo(Final(days, n, capital, m, liquidate), Sessions(days, liquidate), 0, top)
    ensures Conserved(Final(days, n, capital, m, liquidate), capital, Sessions(days, liquidate) * n, top)
  {
    hide RunTo, LiquidateTo, Conserved, Sound;
    var t := |days|;
    RunKeeps(days, t, n, capital, m, top);
    if liquidate {
      assert PricesIn(days[t - 1], top);
      LiquidationKeeps(RunTo(days, t, n, capital, m), n, t, days[t - 1], m, capital, t * n, top);
      assert (t + 1) * n == t * n + n;
    }
  }

  /** Money is conserved to the end of every run, liquidated or not. */
  lemma FinalLedgerConserved(days: seq<Day>, n: nat, capital: real, m: Policy, liquidate: bool, top: real)
    requires |days| > 0 && ShapedDays(days, n) && AllPricesIn(days, top) && top >= 0.0
    ensures var b, t := Final(days, n, capital, m, liquidate), Sessions(days, liquidate);
      && Abs(b.cash + AllTotal(Basis, b) - capital - Realized(b)) <= 3.0 * DustMoney(top, t, n)
      && (forall c :: 0 <= c < n ==> Abs(Total(Shares, b.lots[c]) - b.shares[c]) <= DustOf(t))
  {
    hide Final, Conserved, SoundTo, DustMoney, DustOf, AllTotal, Realized, Sessions;
    FinalKeeps(days, n, capital, m, liquidate, top);
    SoundBooks(Final(days, n, capital, m, liquidate), Sessions(days, liquidate), capital, n, top);
  }

  /**
   Realized plus unrealized gain is what the account is worth above its starting capital, plus the basis of what
   has no price on the last date: for every lot policy, liquidated or not.
   */
  lemma ReportedIsMoneyMade(days: seq<Day>, n: nat, capital: real, m: Policy, liquidate: bool, top: real)
    requires |days| > 0 && ShapedDays(days, n) && AllPricesIn(days, top) && top >= 0.0
    ensures var b, prices := Final(days, n, capital, m, liquidate), days[|days| - 1].prices;
      Abs(Reported(b, prices) - MoneyMade(b, prices, capital) - UnpricedBasis(b, prices, n))
        <= 6.0 * DustMoney(top, Sessions(days, liquidate), n)
  {
    hide Final, Conserved, Reported, MoneyMade, DustMoney;
    FinalKeeps(days, n, capital, m, liquidate, top);
    assert PricesIn(days[|days| - 1], top);
    ReportOfSoundBook(Final(days, n, capital, m, liquidate), days[|days| - 1].prices, Sessions(days, liquidate), n, capital, top);
  }

  /** After a liquidation nothing is left unrealized, so the realized gain alone is the whole report. */
  lemma LiquidationRealizesAll(days: seq<Day>, n: nat, capital: real, m: Policy)
    requires |days| > 0 && ShapedDays(days, n)
    ensures var b, prices := Final(days, n, capital, m, true), days[|days| - 1].prices;
      Reported(b, prices) == Realized(b)
  {
    hide RunTo, LiquidateTo;
    LiquidatedIsClosed(RunTo(days, |days|, n, capital, m), n, days[|days| - 1], m);
    NothingUnrealized(Final(days, n, capital, m, true), days[|days| - 1].prices, n);
  }

  lemma FinalSamePath(days: seq<Day>, n: nat, capital: real, m: Policy, m': Policy, liquidate: bool)
    requires |days| > 0 && ShapedDays(days, n)
    ensures SamePath(Final(days, n, capital, m, liquidate), Final(days, n, capital, m', liquidate))
  {
    hide RunTo, LiquidateTo;
    TradePathIgnoresMethod(days, |days|, n, capital, m, m');
    if liquidate {
      LiquidationSamePath(RunTo(days, |days|, n, capital, m), RunTo(days, |days|, n, capital, m'), n, days[|days| - 1], m, m');
    }
  }

  /**
   The lot policy moves gain between realized and deferred. It changes their total only by the basis it leaves
   in positions without a last price, and so not at all, up to dust, when every position held has one.
   */
  lemma TotalGainIgnoresMethod(days: seq<Day>, n: nat, capital: real, m: Policy, m': Policy, liquidate: bool, top: real)
    requires |days| > 0 && ShapedDays(days, n) && AllPricesIn(days, top) && top >= 0.0
    ensures var prices, dust := days[|days| - 1].prices, 12.0 * DustMoney(top, Sessions(days, liquidate), n);
      var a, b := Final(days, n, capital, m, liquidate), Final(days, n, capital, m', liquidate);
      && Abs((Reported(a, prices) - UnpricedBasis(a, prices, n)) - (Reported(b, prices) - UnpricedBasis(b, prices, n))) <= dust
      && (AllFinite(prices) ==> Abs(Reported(a, prices) - Reported(b, prices)) <= dust)
      && (HeldArePriced(a, prices) ==> Abs(Reported(a, prices) - Reported(b, prices)) <= 1.5 * dust)
  {
    hide Final, Reported, Marked, DustMoney, AllPricesIn, AllFinite, UnpricedBasis, Sessions, HeldArePriced, SoundTo, Conserved;
    var a, b := Final(days, n, capital, m, liquidate), Final(days, n, capital, m', liquidate);
    ReportedIsMoneyMade(days, n, capital, m, liquidate, top);
    ReportedIsMoneyMade(days, n, capital, m', liquidate, top);
    FinalSamePath(days, n, capital, m, m', liquidate);
    if AllFinite(days[|days| - 1].prices) {
      AllPricedNoBasis(a, days[|days| - 1].prices, n);
      AllPricedNoBasis(b, days[|days| - 1].prices, n);
    }
    if HeldArePriced(a, days[|days| - 1].prices) {
      SameHeld(a, b, days[|days| - 1].prices);
      FinalUnpriced(days, n, capital, m, liquidate, top);
      FinalUnpriced(days, n, capital, m', liquidate, top);
    }
  }

  lemma SameHeld(a: Book, b: Book, prices: seq<Option<real>>)
    requires SamePath(a, b) && HeldArePriced(a, prices)
    ensures HeldArePriced(b, prices)
  {}

  lemma FinalUnpriced(days: seq<Day>, n: nat, capital: real, m: Policy, liquidate: bool, top: real)
    requires |days| > 0 && ShapedDays(days, n) && AllPricesIn(days, top) && top >= 0.0
    requires HeldArePriced(Final(days, n, capital, m, liquidate), days[|days| - 1].prices)
    ensures Abs(UnpricedBasis(Final(days, n, capital, m, liquidate), days[|days| - 1].prices, n))
         <= 3.0 * DustMoney(top, Sessions(days, liquidate), n)
  {
    hide Final, SoundTo, Conserved, HeldArePriced, UnpricedBasis, DustMoney, Multiple, DustOf, AllPricesIn;
    var t := Sessions(days, liquidate);
    FinalKeeps(days, n, capital, m, liquidate, top);
    UnpricedIsDust(Final(days, n, capital, m, liquidate), days[|days| - 1].prices, n, t, top, 3.0 * (top * DustOf(t)));
    ThreeDusts(top, t, n, 3.0 * (top * DustOf(t)));
  }

  // ----------------------------------------------------------------- a total that depends on the method

  const CHEAP := Lot(0, 1.0, 1.0)
  const DEAR := Lot(1, 1.0, 3.0)

  /** Buy a share at 1 and another at 3, sell one at 3, and then lose the price. */
  const FOUR_DAYS := [Day(0, [Some(1.0)], [0.25]), Day(1, [Some(3.0)], [1.0]), Day(2, [Some(3.0)], [0.5]), Day(3, [None], [0.5])]

  lemma OneSymbol(b: Book, day: Day, m: Policy)
    requires Shaped(b, 1) && ShapedDay(day, 1)
    ensures var held := if day.prices[0].Some? then MarketValue(b.shares[0], day.prices[0].value) else 0.0;
      Rebalance(b, day, m) == Trade(b, 0, day, b.cash + held, m)
  {
    hide Trade;
    assert Marked(b.shares, day.prices, 0) == 0.0;
    var value := b.cash + Marked(b.shares, day.prices, 1);
    var r := Trade(b, 0, day, value, m);
    TradeShape(b, 0, day, value, m);
    assert TradeFrom(b, 0, day, value, m) == TradeFrom(r, 1, day, value, m) == r;
  }

  lemma TradeShape(b: Book, c: nat, day: Day, value: real, m: Policy)
    requires Shaped(b, |b.lots|) && ShapedDay(day, |b.lots|) && c < |b.lots|
    ensures Shaped(Trade(b, c, day, value, m), |b.lots|)
  {}

  lemma Decisions()
    ensures Decide(0.0, Some(1.0), 0.25, 4.0) == Buy(1.0, 1.0)
    ensures Decide(1.0, Some(3.0), 1.0, 6.0) == Buy(1.0, 3.0)
    ensures Decide(2.0, Some(3.0), 0.5, 6.0) == Sell(1.0, 3.0)
  {}

  const NOTHING := Book([[]], [0.0], 4.0, [], [])
  const ONE_SHARE := Book([[CHEAP]], [1.0], 3.0, [], [(0, 0)])
  const TWO_SHARES := Book([[CHEAP, DEAR]], [2.0], 0.0, [], [(0, 0), (1, 0)])

  lemma FirstDay(m: Policy)
    ensures Rebalance(NOTHING, FOUR_DAYS[0], m) == ONE_SHARE
  {
    hide Rebalance, Decide, LotOrder;
    Decisions();
    OneSymbol(NOTHING, FOUR_DAYS[0], m);
    assert [] + [CHEAP] == [CHEAP];
  }

  lemma SecondDay(m: Policy)
    ensures Rebalance(ONE_SHARE, FOUR_DAYS[1], m) == TWO_SHARES
  {
    hide Rebalance, Decide, LotOrder;
    Decisions();
    OneSymbol(ONE_SHARE, FOUR_DAYS[1], m);
    assert [CHEAP] + [DEAR] == [CHEAP, DEAR];
  }

  lemma ThirdDay(m: Policy)
    ensures Rebalance(TWO_SHARES, FOUR_DAYS[2], m) == SellFrom(TWO_SHARES, 0, 1.0, 3.0, 2, m)
  {
    hide Rebalance, Decide, SellFrom;
    Decisions();
    OneSymbol(TWO_SHARES, FOUR_DAYS[2], m);
  }

  lemma FourthDay(b: Book, m: Policy)
    requires Shaped(b, 1)
    ensures Rebalance(b, FOUR_DAYS[3], m) == b
  {
    hide Rebalance;
    OneSymbol(b, FOUR_DAYS[3], m);
  }

  lemma NextDay(days: seq<Day>, t: nat, n: nat, capital: real, m: Policy)
    requires t < |days| && ShapedDays(days, n)
    ensures RunTo(days, t + 1, n, capital, m) == Rebalance(RunTo(days, t, n, capital, m), days[t], m)
    ensures RunTo(days, 0, n, capital, m) == Opening(n, capital)
  {
    hide Rebalance;
  }

  lemma FourDays(m: Policy)
    ensures RunTo(FOUR_DAYS, 4, 1, 4.0, m) == SellFrom(TWO_SHARES, 0, 1.0, 3.0, 2, m)
  {
    hide Rebalance, SellFrom, RunTo;
    assert Opening(1, 4.0) == NOTHING;
    NextDay(FOUR_DAYS, 0, 1, 4.0, m);
    FirstDay(m);
    NextDay(FOUR_DAYS, 1, 1, 4.0, m);
    SecondDay(m);
    NextDay(FOUR_DAYS, 2, 1, 4.0, m);
    ThirdDay(m);
    NextDay(FOUR_DAYS, 3, 1, 4.0, m);
    FourthDay(RunTo(FOUR_DAYS, 3, 1, 4.0, m), m);
  }

  /** After the four days the lot delivered is gone and its gain realized. */
  lemma OneSold(m: Method, i: nat)
    requires i < 2 && LotOrder([CHEAP, DEAR], m) == [i, 1 - i]
    ensures var b := RunTo(FOUR_DAYS, 4, 1, 4.0, Rule(m));
      b.lots == [[[CHEAP, DEAR][1 - i]]] && b.shares == [1.0] && Realized(b) == 3.0 - [CHEAP, DEAR][i].cost
  {
    hide RunTo, Delivered, Live, LotOrder, Proceeds, EventBasis;
    FourDays(Rule(m));
    OneTouched(m, i);
    OneEvent(Report([CHEAP, DEAR][i], 1.0, Terms(3.0, 2, 0)));
    var sale := Delivered([CHEAP, DEAR], 1.0, Terms(3.0, 2, 0), Rule(m));
    assert [] + sale.events == sale.events;
  }

  lemma OneTouched(m: Method, i: nat)
    requires i < 2 && LotOrder([CHEAP, DEAR], m) == [i, 1 - i]
    ensures var sale := Delivered([CHEAP, DEAR], 1.0, Terms(3.0, 2, 0), Rule(m));
      && Live(sale.lots) == [[CHEAP, DEAR][1 - i]]
      && sale.events == [Report([CHEAP, DEAR][i], 1.0, Terms(3.0, 2, 0))]
  {
    hide LotOrder;
    var lots, terms := [CHEAP, DEAR], Terms(3.0, 2, 0);
    var start := Sale(lots, [], 1.0);
    var next := Touch(start, i, terms);
    assert next == Sale(lots[i := lots[i].(shares := 0.0)], [Report(lots[i], 1.0, terms)], 0.0);
    assert Consume(start, [i, 1 - i], 0, terms) == Consume(next, [i, 1 - i], 1, terms) == next;
    assert Live(next.lots[..0]) == [];
    assert next.lots[..1][..0] == next.lots[..0] && next.lots[..2] == next.lots;
  }

  lemma OneEvent(e: Event)
    ensures Proceeds([e]) == e.proceeds && EventBasis([e]) == e.basis
  {
    assert Proceeds([e]) == Sum([] + [e.proceeds]) by {
      assert seq(1, i requires 0 <= i < 1 => [e][i].proceeds) == [] + [e.proceeds];
    }
    assert EventBasis([e]) == Sum([] + [e.basis]) by {
      assert seq(1, i requires 0 <= i < 1 => [e][i].basis) == [] + [e.basis];
    }
    SumSnoc([], e.proceeds);
    SumSnoc([], e.basis);
  }

  lemma BothOrders()
    ensures LotOrder([CHEAP, DEAR], Fifo) == [0, 1] && LotOrder([CHEAP, DEAR], Hifo) == [1, 0]
  {
    var lots := [CHEAP, DEAR];
    assert ByCost(lots, 0) == [];
    assert ByCost(lots, 1) == [0];
    assert InsertByCost(lots, [0][..0], 1) == [1];
    assert ByCost(lots, 2) == [1] + [0];
  }

  lemma KeptUnpriced(b: Book)
    requires Shaped(b, 1)
    ensures UnrealizedTo(b, [None], 1) == 0.0
  {
    assert UnrealizedTo(b, [None], 0) == 0.0;
  }

  /** With a position that has lost its price, the reported total does depend on the method: 2 under FIFO, 0 under
      HIFO, on the same trades. */
  lemma UnpricedTotalDependsOnMethod()
    ensures var prices := FOUR_DAYS[3].prices;
      && Reported(Final(FOUR_DAYS, 1, 4.0, Rule(Fifo), false), prices) == 2.0
      && Reported(Final(FOUR_DAYS, 1, 4.0, Rule(Hifo), false), prices) == 0.0
  {
    hide RunTo, LotOrder, Realized, UnrealizedTo;
    BothOrders();
    OneSold(Fifo, 0);
    OneSold(Hifo, 1);
    KeptUnpriced(Final(FOUR_DAYS, 1, 4.0, Rule(Fifo), false));
    KeptUnpriced(Final(FOUR_DAYS, 1, 4.0, Rule(Hifo), false));
  }
}
