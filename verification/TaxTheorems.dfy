/**
 What the simulator promises over whole histories: the trade path does not depend on the lot method, money
 is conserved, and HIFO never holds more expensive shares (so never realizes more gain) than any other
 method. The code's dust thresholds make the last two exact only up to a bound, which is stated.
 */
module TaxTheorems {
  import opened Reals
  import opened TaxLots
  import opened TaxSales
  import opened TaxSimulation

  // ---------------------------------------------------------------------------- the trade path

  /** Two books that hold the same shares, cash and repurchase ledger, whatever their lots. */
  ghost predicate SamePath(a: Book, b: Book) {
    a.shares == b.shares && a.cash == b.cash && a.buys == b.buys && |a.lots| == |b.lots| == |a.shares|
  }

  lemma {:induction false} DaySamePath(a: Book, b: Book, c: nat, day: Day, value: real, m: Policy, m': Policy)
    requires SamePath(a, b) && ShapedDay(day, |a.lots|) && c <= |a.lots|
    ensures SamePath(TradeFrom(a, c, day, value, m), TradeFrom(b, c, day, value, m'))
    decreases |a.lots| - c
  {
    if c < |a.lots| {
      DaySamePath(Trade(a, c, day, value, m), Trade(b, c, day, value, m'), c + 1, day, value, m, m');
    }
  }

  /** The lot policy decides which lots are delivered and nothing else about the trades. */
  lemma {:induction false} TradePathIgnoresMethod(days: seq<Day>, t: nat, n: nat, capital: real, m: Policy, m': Policy)
    requires t <= |days| && ShapedDays(days, n)
    ensures SamePath(RunTo(days, t, n, capital, m), RunTo(days, t, n, capital, m'))
  {
    if t > 0 {
      TradePathIgnoresMethod(days, t - 1, n, capital, m, m');
      var a, b := RunTo(days, t - 1, n, capital, m), RunTo(days, t - 1, n, capital, m');
      DaySamePath(a, b, 0, days[t - 1], a.cash + Marked(a.shares, days[t - 1].prices, n), m, m');
    }
  }

  // ------------------------------------------------------------------------------ one position

  /** Prices whose size is at most `top`, the bound in which the dust errors are measured. */
  ghost predicate PricesIn(day: Day, top: real) {
    forall c :: 0 <= c < |day.prices| && day.prices[c].Some? ==> -top <= day.prices[c].value <= top
  }

  ghost predicate AllPricesIn(days: seq<Day>, top: real) {
    forall t :: 0 <= t < |days| ==> PricesIn(days[t], top)
  }

  /** The dust that `sales` sales can lose. */
  ghost function DustOf(sales: nat): real {
    sales as real * DUST
  }

  lemma DustOfNext(sales: nat)
    ensures DustOf(sales + 1) == DustOf(sales) + DUST && 0.0 <= DustOf(sales)
  {
    assert (sales + 1) as real * DUST == sales as real * DUST + DUST;
  }

  /** A position's lots are live, bought at positive prices up to `top`, and add up to the shares held
      with an error of at most one dust per sale made. */
  ghost predicate Sound(lots: seq<Lot>, held: real, sales: nat, top: real) {
    && AllLive(lots) && CostsIn(lots, top) && held >= 0.0
    && Abs(Total(Shares, lots) - held) <= DustOf(sales)
  }

  lemma ZeroLots(lots: seq<Lot>)
    requires forall i :: 0 <= i < |lots| ==> lots[i].shares == 0.0
    ensures Total(Shares, lots) == 0.0
    decreases |lots|
  {
    if |lots| > 0 {
      assert lots == lots[..|lots| - 1] + [lots[|lots| - 1]];
      TotalSnoc(Shares, lots[..|lots| - 1], lots[|lots| - 1]);
      ZeroLots(lots[..|lots| - 1]);
    }
  }

  lemma SaleKeepsSound(lots: seq<Lot>, held: real, sales: nat, top: real, qty: real, terms: Terms, m: Policy)
    requires Sound(lots, held, sales, top) && 0.0 <= qty <= held
    ensures Sound(Live(Delivered(lots, qty, terms, m).lots), held - qty, sales + 1, top)
  {
    SaleIsFeasible(lots, qty, terms, m);
    var sale := Delivered(lots, qty, terms, m);
    LiveLevel(0.0, sale.lots);
    LiveCosts(sale.lots, top);
    DustOfNext(sales);
    if sale.remaining > DUST {
      ZeroLots(sale.lots);
    }
  }

  /** Money that `drift` shares, and two dust for every trade, are worth at the dearest price. */
  ghost function Slack(top: real, drift: real, trades: nat): real {
    top * (drift + 2.0 * DustOf(trades))
  }

  lemma SlackAdds(top: real, d: real, j: nat, d': real)
    requires top >= 0.0
    ensures Slack(top, d, j) + Slack(top, d', 1) == Slack(top, d + d', j + 1)
    ensures Slack(top, d, j) <= Slack(top, d, j + 1)
  {
    DustOfNext(j);
    DustOfNext(0);
    hide DustOf;
    MulAdd(top, d + 2.0 * DustOf(j), d' + 2.0 * DUST);
    assert d + d' + 2.0 * DustOf(j + 1) == (d + 2.0 * DustOf(j)) + (d' + 2.0 * DUST);
    MulMono(top, d + 2.0 * DustOf(j), d + 2.0 * DustOf(j + 1));
  }

  /** How far a sale moves the lots against the shares they should hold. */
  ghost function SaleDrift(lots: seq<Lot>, qty: real, sale: Sale): real {
    Total(Shares, Live(sale.lots)) - Total(Shares, lots) + qty
  }

  /** The money a sale leaves unexplained: cash for shares it could not deliver, less the basis of
      shares it dropped. */
  ghost function SaleGap(lots: seq<Lot>, qty: real, price: real, sale: Sale): real {
    qty * price + Total(Basis, Live(sale.lots)) - Total(Basis, lots) - Proceeds(sale.events) + EventBasis(sale.events)
  }

  lemma DriftOfSale(lots: seq<Lot>, qty: real, sale: Sale, terms: Terms)
    requires Settled(lots, qty, sale, terms)
    ensures SaleDrift(lots, qty, sale) == sale.remaining - Total(Spent, sale.lots)
  {
    LiveLevel(0.0, sale.lots);
  }

  /** The scalar facts about a settled sale that the money argument needs. */
  ghost predicate Scalars(lots: seq<Lot>, top: real, qty: real, sale: Sale, price: real) {
    var u, d := sale.remaining, Total(Spent, sale.lots);
    && 0.0 <= u && 0.0 <= d <= DUST
    && Proceeds(sale.events) == (qty - u) * price
    && Total(Basis, lots) - EventBasis(sale.events) - top * d <= Total(Basis, Live(sale.lots))
       <= Total(Basis, lots) - EventBasis(sale.events)
  }

  lemma SettledScalars(lots: seq<Lot>, top: real, qty: real, sale: Sale, terms: Terms)
    requires Settled(lots, qty, sale, terms) && CostsIn(lots, top)
    ensures Scalars(lots, top, qty, sale, terms.price)
  {
    LiveBasis(top, sale.lots);
  }

  lemma ScalarGap(lots: seq<Lot>, top: real, qty: real, sale: Sale, price: real)
    requires Scalars(lots, top, qty, sale, price) && -top <= price <= top
    ensures Abs(SaleGap(lots, qty, price, sale)) <= Slack(top, sale.remaining - Total(Spent, sale.lots), 1)
  {
    GapBound(qty, sale.remaining, Total(Spent, sale.lots), price, top, Proceeds(sale.events),
             EventBasis(sale.events), Total(Basis, lots), Total(Basis, Live(sale.lots)));
  }

  /** The unexplained money of one sale is at most what the drift it causes, and two dust, are worth. */
  lemma SaleGapBound(lots: seq<Lot>, top: real, qty: real, terms: Terms, m: Policy)
    requires AllLive(lots) && CostsIn(lots, top) && qty >= 0.0 && -top <= terms.price <= top
    ensures var sale := Delivered(lots, qty, terms, m);
      Abs(SaleGap(lots, qty, terms.price, sale)) <= Slack(top, SaleDrift(lots, qty, sale), 1)
  {
    SaleIsFeasible(lots, qty, terms, m);
    var sale := Delivered(lots, qty, terms, m);
    DriftOfSale(lots, qty, sale, terms);
    SettledScalars(lots, top, qty, sale, terms);
    ScalarGap(lots, top, qty, sale, terms.price);
  }

  lemma GapBound(q: real, u: real, d: real, p: real, top: real, proceeds: real, sold: real, before: real, after: real)
    requires 0.0 <= u && 0.0 <= d <= DUST && -top <= p <= top
    requires proceeds == (q - u) * p
    requires before - sold - top * d <= after <= before - sold
    ensures Abs(q * p + after - before - proceeds + sold) <= Slack(top, u - d, 1)
  {
    Distribute(q - u, u, p);
    assert (q - u) + u == q;
    var lost := before - sold - after;
    assert q * p + after - before - proceeds + sold == u * p - lost;
    LossBound(u, d, DUST, p, top, lost);
  }

  lemma LossBound(u: real, d: real, dust: real, p: real, top: real, lost: real)
    requires 0.0 <= u && 0.0 <= d <= dust && -top <= p <= top && 0.0 <= lost <= top * d
    ensures Abs(u * p - lost) <= top * (u - d + 2.0 * dust)
  {
    MulMono(u, p, top);
    MulMono(u, -top, p);
    MulMono(top, d, dust);
    var up, ut, dt, et := u * p, u * top, top * d, top * dust;
    assert top * (u - d + 2.0 * dust) == ut - dt + 2.0 * et;
    assert -ut <= up <= ut && dt <= et;
    assert up - lost <= ut - dt + 2.0 * et;
    assert lost - up <= ut - dt + 2.0 * et;
  }

  // ---------------------------------------------------------------------------- the whole book

  ghost function Totals(m: Measure, b: Book): seq<real> {
    seq(|b.lots|, c requires 0 <= c < |b.lots| => Total(m, b.lots[c]))
  }

  ghost function AllTotal(m: Measure, b: Book): real {
    Sum(Totals(m, b))
  }

  ghost function Realized(b: Book): real {
    Proceeds(b.events) - EventBasis(b.events)
  }

  /** What the lots hold beyond the shares the simulator thinks it holds. */
  ghost function Drift(b: Book): real {
    AllTotal(Shares, b) - Sum(b.shares)
  }

  /** Cash and lot basis beyond the starting capital and the gain realized: zero in exact accounting. */
  ghost function Gap(b: Book, capital: real): real {
    b.cash + AllTotal(Basis, b) - capital - Realized(b)
  }

  /** After `t` full days and the first c symbols of the next one. */
  ghost predicate SoundTo(b: Book, t: nat, c: nat, top: real) {
    && |b.shares| == |b.lots|
    && forall j :: 0 <= j < |b.lots| ==> Sound(b.lots[j], b.shares[j], if j < c then t + 1 else t, top)
  }

  ghost predicate Conserved(b: Book, capital: real, trades: nat, top: real) {
    Abs(Gap(b, capital)) <= Slack(top, Drift(b), trades)
  }

  lemma TotalsUpdate(m: Measure, b: Book, b': Book, c: nat, lots: seq<Lot>)
    requires c < |b.lots| && b'.lots == b.lots[c := lots]
    ensures AllTotal(m, b') == AllTotal(m, b) - Total(m, b.lots[c]) + Total(m, lots)
  {
    assert Totals(m, b') == Totals(m, b)[c := Total(m, lots)];
    SumUpdate(Totals(m, b), c, Total(m, lots));
  }

  lemma SellGapDrift(b: Book, capital: real, c: nat, qty: real, price: real, date: int, m: Policy)
    requires c < |b.lots| == |b.shares|
    ensures var sale := Delivered(b.lots[c], qty, Terms(price, date, c), m);
      var b' := SellFrom(b, c, qty, price, date, m);
      && Gap(b', capital) == Gap(b, capital) + SaleGap(b.lots[c], qty, price, sale)
      && Drift(b') == Drift(b) + SaleDrift(b.lots[c], qty, sale)
  {
    hide Total, Sum, Delivered, Proceeds, EventBasis;
    var sale := Delivered(b.lots[c], qty, Terms(price, date, c), m);
    var b' := SellFrom(b, c, qty, price, date, m);
    TotalsUpdate(Basis, b, b', c, Live(sale.lots));
    TotalsUpdate(Shares, b, b', c, Live(sale.lots));
    SumUpdate(b.shares, c, b.shares[c] - qty);
    EventsAppend(b.events, sale.events);
  }

  lemma SellConserves(b: Book, capital: real, trades: nat, top: real, c: nat, qty: real, price: real, date: int, m: Policy)
    requires c < |b.lots| == |b.shares| && Conserved(b, capital, trades, top)
    requires AllLive(b.lots[c]) && CostsIn(b.lots[c], top) && qty >= 0.0 && -top <= price <= top
    ensures Conserved(SellFrom(b, c, qty, price, date, m), capital, trades + 1, top)
  {
    hide Delivered, Gap, Drift, SaleGap, SaleDrift, SellFrom, Slack, AllLive, CostsIn;
    var terms := Terms(price, date, c);
    var sale := Delivered(b.lots[c], qty, terms, m);
    SellGapDrift(b, capital, c, qty, price, date, m);
    SaleGapBound(b.lots[c], top, qty, terms, m);
    SlackAdds(top, Drift(b), trades, SaleDrift(b.lots[c], qty, sale));
  }

  lemma BuyGapDrift(b: Book, capital: real, c: nat, qty: real, price: real, date: int)
    requires c < |b.lots| == |b.shares|
    ensures Gap(BuyInto(b, c, qty, price, date), capital) == Gap(b, capital)
    ensures Drift(BuyInto(b, c, qty, price, date)) == Drift(b)
  {
    hide Total, Sum;
    var lot := Lot(date, qty, price);
    var b' := BuyInto(b, c, qty, price, date);
    TotalSnoc(Basis, b.lots[c], lot);
    TotalSnoc(Shares, b.lots[c], lot);
    TotalsUpdate(Basis, b, b', c, b.lots[c] + [lot]);
    TotalsUpdate(Shares, b, b', c, b.lots[c] + [lot]);
    SumUpdate(b.shares, c, b.shares[c] + qty);
  }

  lemma SoundLater(lots: seq<Lot>, held: real, sales: nat, top: real)
    requires Sound(lots, held, sales, top)
    ensures Sound(lots, held, sales + 1, top)
  {
    DustOfNext(sales);
  }

  lemma BuyKeepsSound(lots: seq<Lot>, held: real, sales: nat, top: real, lot: Lot)
    requires Sound(lots, held, sales, top) && lot.shares > DUST && 0.0 < lot.cost <= top
    ensures Sound(lots + [lot], held + lot.shares, sales + 1, top)
  {
    TotalSnoc(Shares, lots, lot);
    SoundLater(lots, held, sales, top);
  }

  lemma SellKeeps(b: Book, t: nat, c: nat, qty: real, price: real, date: int, m: Policy, capital: real, trades: nat, top: real)
    requires c < |b.lots| && SoundTo(b, t, c, top) && Conserved(b, capital, trades, top)
    requires 0.0 <= qty <= b.shares[c] && -top <= price <= top
    ensures SoundTo(SellFrom(b, c, qty, price, date, m), t, c + 1, top)
    ensures Conserved(SellFrom(b, c, qty, price, date, m), capital, trades + 1, top)
  {
    assert Sound(b.lots[c], b.shares[c], t, top);
    SaleKeepsSound(b.lots[c], b.shares[c], t, top, qty, Terms(price, date, c), m);
    SellConserves(b, capital, trades, top, c, qty, price, date, m);
  }

  lemma BuyKeeps(b: Book, t: nat, c: nat, qty: real, price: real, date: int, capital: real, trades: nat, top: real)
    requires c < |b.lots| && SoundTo(b, t, c, top) && Conserved(b, capital, trades, top)
    requires qty > DUST && 0.0 < price <= top
    ensures SoundTo(BuyInto(b, c, qty, price, date), t, c + 1, top)
    ensures Conserved(BuyInto(b, c, qty, price, date), capital, trades + 1, top)
  {
    assert Sound(b.lots[c], b.shares[c], t, top);
    BuyKeepsSound(b.lots[c], b.shares[c], t, top, Lot(date, qty, price));
    BuyGapDrift(b, capital, c, qty, price, date);
    SlackAdds(top, Drift(b), trades, 0.0);
  }

  lemma IdleKeeps(b: Book, t: nat, c: nat, capital: real, trades: nat, top: real)
    requires c < |b.lots| && SoundTo(b, t, c, top) && Conserved(b, capital, trades, top) && top >= 0.0
    ensures SoundTo(b, t, c + 1, top) && Conserved(b, capital, trades + 1, top)
  {
    assert Sound(b.lots[c], b.shares[c], t, top);
    SoundLater(b.lots[c], b.shares[c], t, top);
    SlackAdds(top, Drift(b), trades, 0.0);
  }

  lemma TradeKeeps(b: Book, t: nat, c: nat, day: Day, value: real, m: Policy, capital: real, trades: nat, top: real)
    requires ShapedDay(day, |b.lots|) && c < |b.lots| && PricesIn(day, top) && top >= 0.0
    requires SoundTo(b, t, c, top) && Conserved(b, capital, trades, top)
    ensures SoundTo(Trade(b, c, day, value, m), t, c + 1, top)
    ensures Conserved(Trade(b, c, day, value, m), capital, trades + 1, top)
  {
    assert Sound(b.lots[c], b.shares[c], t, top);
    match Decide(b.shares[c], day.prices[c], day.weights[c], value)
    case Hold => IdleKeeps(b, t, c, capital, trades, top);
    case Sell(qty, p) => SellKeeps(b, t, c, qty, p, day.date, m, capital, trades, top);
    case Buy(qty, p) => BuyKeeps(b, t, c, qty, p, day.date, capital, trades, top);
  }

  lemma {:induction false} DayKeeps(b: Book, t: nat, c: nat, day: Day, value: real, m: Policy, capital: real, trades: nat, top: real)
    requires ShapedDay(day, |b.lots|) && c <= |b.lots| && PricesIn(day, top) && top >= 0.0
    requires SoundTo(b, t, c, top) && Conserved(b, capital, trades, top)
    ensures SoundTo(TradeFrom(b, c, day, value, m), t + 1, 0, top)
    ensures Conserved(TradeFrom(b, c, day, value, m), capital, trades + (|b.lots| - c), top)
    decreases |b.lots| - c
  {
    if c < |b.lots| {
      TradeKeeps(b, t, c, day, value, m, capital, trades, top);
      DayKeeps(Trade(b, c, day, value, m), t, c + 1, day, value, m, capital, trades + 1, top);
    }
  }

  lemma OpeningKeeps(n: nat, capital: real, top: real)
    requires top >= 0.0
    ensures SoundTo(Opening(n, capital), 0, 0, top) && Conserved(Opening(n, capital), capital, 0, top)
  {
    var b := Opening(n, capital);
    assert Totals(Shares, b) == seq(n, _ => 0.0) && Totals(Basis, b) == seq(n, _ => 0.0);
    Zeros(n);
  }

  lemma {:induction false} Zeros(n: nat)
    ensures Sum(seq(n, _ => 0.0)) == 0.0
  {
    if n > 0 {
      assert seq(n, _ => 0.0)[..n - 1] == seq(n - 1, _ => 0.0);
      Zeros(n - 1);
    }
  }

  lemma RebalanceKeeps(b: Book, t: nat, day: Day, m: Policy, capital: real, trades: nat, trades': nat, top: real)
    requires ShapedDay(day, |b.lots|) && PricesIn(day, top) && top >= 0.0 && trades' == trades + |b.lots|
    requires SoundTo(b, t, 0, top) && Conserved(b, capital, trades, top)
    ensures SoundTo(Rebalance(b, day, m), t + 1, 0, top)
    ensures Conserved(Rebalance(b, day, m), capital, trades', top)
  {
    hide Conserved, Sound, PricesIn, Marked;
    DayKeeps(b, t, 0, day, b.cash + Marked(b.shares, day.prices, |b.lots|), m, capital, trades, top);
  }

  lemma {:induction false} RunKeeps(days: seq<Day>, t: nat, n: nat, capital: real, m: Policy, top: real)
    requires t <= |days| && ShapedDays(days, n) && AllPricesIn(days, top) && top >= 0.0
    ensures SoundTo(RunTo(days, t, n, capital, m), t, 0, top)
    ensures Conserved(RunTo(days, t, n, capital, m), capital, t * n, top)
  {
    if t == 0 {
      OpeningKeeps(n, capital, top);
    } else {
      RunKeeps(days, t - 1, n, capital, m, top);
      assert t * n == (t - 1) * n + n;
      RebalanceKeeps(RunTo(days, t - 1, n, capital, m), t - 1, days[t - 1], m, capital, (t - 1) * n, t * n, top);
    }
  }

  /** Columns that are each off by at most e are together off by at most n times e. */
  lemma DriftBound(b: Book, e: real)
    requires |b.lots| == |b.shares|
    requires forall j :: 0 <= j < |b.lots| ==> Abs(Total(Shares, b.lots[j]) - b.shares[j]) <= e
    ensures Abs(Drift(b)) <= |b.lots| as real * e
  {
    var n := |b.lots|;
    var up, down := seq(n, _ => e), seq(n, _ => -e);
    SumMono(Totals(Shares, b), Plus(b.shares, up));
    SumMono(Plus(b.shares, down), Totals(Shares, b));
    SumPlus(b.shares, up);
    SumPlus(b.shares, down);
    Constant(n, e);
    Constant(n, -e);
  }

  /** One dust per day and symbol, at the dearest price. */
  ghost function DustMoney(top: real, t: nat, n: nat): real {
    top * (n as real * DustOf(t))
  }

  lemma {:induction false} Constant(n: nat, x: real)
    ensures Sum(seq(n, _ => x)) == n as real * x
  {
    if n > 0 {
      assert seq(n, _ => x)[..n - 1] == seq(n - 1, _ => x);
      Constant(n - 1, x);
      assert n as real * x == (n - 1) as real * x + x;
    }
  }

  /**
   Money is conserved through every history: cash plus the basis of the lots held differs from the
   starting capital plus the gain realized by at most three dust per day and symbol, at the dearest price;
   and no position's lots differ from its shares by more than one dust per day.
   */
  lemma LedgerConserved(days: seq<Day>, t: nat, n: nat, capital: real, m: Policy, top: real)
    requires t <= |days| && ShapedDays(days, n) && AllPricesIn(days, top) && top >= 0.0
    ensures var b := RunTo(days, t, n, capital, m);
      && Abs(b.cash + AllTotal(Basis, b) - capital - Realized(b)) <= 3.0 * DustMoney(top, t, n)
      && (forall c :: 0 <= c < n ==> Abs(Total(Shares, b.lots[c]) - b.shares[c]) <= DustOf(t))
  {
    RunKeeps(days, t, n, capital, m, top);
    SoundBooks(RunTo(days, t, n, capital, m), t, capital, n, top);
  }

  lemma SoundBooks(b: Book, t: nat, capital: real, n: nat, top: real)
    requires |b.lots| == n && top >= 0.0 && SoundTo(b, t, 0, top) && Conserved(b, capital, t * n, top)
    ensures Abs(Gap(b, capital)) <= 3.0 * DustMoney(top, t, n)
    ensures forall c :: 0 <= c < n ==> Abs(Total(Shares, b.lots[c]) - b.shares[c]) <= DustOf(t)
  {
    hide DustOf, DustMoney, Total, Slack, Gap, Drift;
    forall c | 0 <= c < n ensures Abs(Total(Shares, b.lots[c]) - b.shares[c]) <= DustOf(t) {
      assert Sound(b.lots[c], b.shares[c], t, top);
    }
    DriftBound(b, DustOf(t));
    SlackBound(top, Drift(b), t, n);
  }

  lemma SlackBound(top: real, drift: real, t: nat, n: nat)
    requires top >= 0.0 && Abs(drift) <= n as real * DustOf(t)
    ensures Slack(top, drift, t * n) <= 3.0 * DustMoney(top, t, n)
  {
    var e := n as real * DustOf(t);
    assert DustOf(t * n) == e by {
      assert (t * n) as real == n as real * t as real;
    }
    MulMono(top, drift + 2.0 * e, 3.0 * e);
    assert top * (3.0 * e) == 3.0 * (top * e);
  }
}
