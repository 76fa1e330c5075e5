/**
 HIFO against any other lot choice (research/mds/taxaware.py). At every date and every cost level the HIFO
 book holds no more shares at or above that cost, so it has realized no more gain: the ordering that makes
 tax deferral work, over whole histories, up to the dust the code discards.
 */
module HifoDominance {
  import opened Reals
  import opened TaxLots
  import opened TaxSales
  import opened TaxSimulation
  import opened TaxTheorems

  // ------------------------------------------------------------------------------ one position

  /** At every cost level, h holds no more than o does and `slack`. */
  ghost predicate Dominates(h: seq<Lot>, o: seq<Lot>, slack: real) {
    forall c: real :: Total(AtLeast(c), h) <= Total(AtLeast(c), o) + slack
  }

  /** A HIFO sale of one position against any feasible sale of the other: in any order, or split across the lots in
      any way. */
  lemma SaleDominates(h: seq<Lot>, o: seq<Lot>, slack: real, qty: real, mid: seq<Lot>, unsold: real, terms: Terms)
    requires Dominates(h, o, slack) && AllLive(h) && qty >= 0.0 && slack >= 0.0
    requires Feasible(o, qty, mid, unsold)
    ensures Dominates(Live(Delivered(h, qty, terms, Rule(Hifo)).lots), Live(mid), slack + 2.0 * DUST)
  {
    var hm := Delivered(h, qty, terms, Rule(Hifo));
    SaleIsFeasible(h, qty, terms, Rule(Hifo));
    HifoIsDearestFirst(h, qty, terms);
    hide Feasible, DearestFirst;
    forall c: real
      ensures Total(AtLeast(c), Live(hm.lots)) <= Total(AtLeast(c), Live(mid)) + (slack + 2.0 * DUST)
    {
      DearestCeiling(h, qty, hm.lots, hm.remaining, c);
      FeasibleFloor(o, qty, mid, unsold, c);
      assert Total(AtLeast(c), h) <= Total(AtLeast(c), o) + slack;
    }
  }

  lemma BuyDominates(h: seq<Lot>, o: seq<Lot>, slack: real, lot: Lot)
    requires Dominates(h, o, slack)
    ensures Dominates(h + [lot], o + [lot], slack)
  {
    forall c: real ensures Total(AtLeast(c), h + [lot]) <= Total(AtLeast(c), o + [lot]) + slack {
      TotalSnoc(AtLeast(c), h, lot);
      TotalSnoc(AtLeast(c), o, lot);
      assert Total(AtLeast(c), h) <= Total(AtLeast(c), o) + slack;
    }
  }

  // -------------------------------------------------------------------- from cost levels to basis

  ghost predicate Sorted(s: seq<real>) {
    forall i, j :: 0 <= i <= j < |s| ==> s[i] <= s[j]
  }

  lemma {:induction false} AddRung(ladder: seq<real>, x: real) returns (r: seq<real>)
    requires Sorted(ladder)
    ensures Sorted(r) && forall y :: y in r <==> y in ladder || y == x
  {
    if |ladder| == 0 || ladder[|ladder| - 1] <= x {
      r := ladder + [x];
    } else {
      var init, last := ladder[..|ladder| - 1], ladder[|ladder| - 1];
      assert ladder == init + [last];
      var rest := AddRung(init, x);
      assert forall y :: y in init ==> y <= last;
      assert forall i :: 0 <= i < |rest| ==> rest[i] in rest;
      r := rest + [last];
    }
  }

  lemma {:induction false} AddCosts(ladder: seq<real>, lots: seq<Lot>) returns (r: seq<real>)
    requires Sorted(ladder)
    ensures Sorted(r) && (forall y <- ladder :: y in r) && (forall i :: 0 <= i < |lots| ==> lots[i].cost in r)
    ensures forall y <- r :: y in ladder || exists i :: 0 <= i < |lots| && lots[i].cost == y
  {
    r := ladder;
    if |lots| > 0 {
      r := AddCosts(ladder, lots[..|lots| - 1]);
      r := AddRung(r, lots[|lots| - 1].cost);
    }
  }

  /** Every cost of the lots is one of the rungs. */
  ghost predicate OnLadder(lots: seq<Lot>, ladder: seq<real>) {
    forall i :: 0 <= i < |lots| ==> lots[i].cost in ladder
  }

  /** No lot costs strictly between lo and hi. */
  ghost predicate NoneBetween(lots: seq<Lot>, lo: real, hi: real) {
    lo <= hi && forall i :: 0 <= i < |lots| ==> lots[i].cost <= lo || lots[i].cost >= hi
  }

  lemma LotGain(lot: Lot, lo: real, hi: real)
    requires lo <= hi && (lot.cost <= lo || lot.cost >= hi)
    ensures Weigh(Capped(hi), lot) == Weigh(Capped(lo), lot) + (hi - lo) * Weigh(AtLeast(hi), lot)
  {
    if lot.cost >= hi {
      assert Weigh(Capped(hi), lot) == lot.shares * hi && Weigh(Capped(lo), lot) == lot.shares * lo;
      MulAdd(lot.shares, hi, lo);
      assert (hi - lo) * lot.shares == lot.shares * (hi - lo);
    } else {
      assert Min(lot.cost, hi) == lot.cost == Min(lot.cost, lo);
      assert (hi - lo) * 0.0 == 0.0;
    }
  }

  lemma WeightsGain(lots: seq<Lot>, lo: real, hi: real)
    requires NoneBetween(lots, lo, hi)
    ensures Weights(Capped(hi), lots) == Plus(Weights(Capped(lo), lots), Scale(hi - lo, Weights(AtLeast(hi), lots)))
  {
    forall i | 0 <= i < |lots|
      ensures Weights(Capped(hi), lots)[i]
           == Plus(Weights(Capped(lo), lots), Scale(hi - lo, Weights(AtLeast(hi), lots)))[i]
    {
      LotGain(lots[i], lo, hi);
    }
  }

  /** Between two neighbouring rungs, `step` apart, the capped basis grows by the shares held above. */
  lemma RungGain(lots: seq<Lot>, lo: real, hi: real, step: real)
    requires NoneBetween(lots, lo, hi) && step == hi - lo
    ensures Total(Capped(hi), lots) == Total(Capped(lo), lots) + step * Total(AtLeast(hi), lots)
  {
    hide Weigh, Sum;
    var low, above := Weights(Capped(lo), lots), Weights(AtLeast(hi), lots);
    WeightsGain(lots, lo, hi);
    SumPlus(low, Scale(step, above));
    SumScale(step, above);
  }

  /** The capped basis of h is within `slack` shares at `m` of that of o. */
  ghost predicate AtRung(h: seq<Lot>, o: seq<Lot>, slack: real, m: real) {
    Total(Capped(m), h) <= Total(Capped(m), o) + slack * m
  }

  lemma Rung(h: seq<Lot>, o: seq<Lot>, slack: real, lo: real, hi: real)
    requires Total(AtLeast(hi), h) <= Total(AtLeast(hi), o) + slack
    requires NoneBetween(h, lo, hi) && NoneBetween(o, lo, hi) && AtRung(h, o, slack, lo)
    ensures AtRung(h, o, slack, hi)
  {
    hide Total;
    var step := hi - lo;
    RungGain(h, lo, hi, step);
    RungGain(o, lo, hi, step);
    MulMono(step, Total(AtLeast(hi), h), Total(AtLeast(hi), o) + slack);
    MulAdd(step, Total(AtLeast(hi), o), slack);
    RungSlack(slack, lo, hi, step);
  }

  lemma RungSlack(slack: real, lo: real, hi: real, step: real)
    requires step == hi - lo
    ensures slack * hi == slack * lo + step * slack
  {
    MulAdd(slack, lo, step);
  }

  lemma {:induction false} ClimbLadder(h: seq<Lot>, o: seq<Lot>, slack: real, ladder: seq<real>, k: nat)
    requires Dominates(h, o, slack) && Sorted(ladder) && k < |ladder| && ladder[0] == 0.0
    requires OnLadder(h, ladder) && OnLadder(o, ladder) && CostsIn(h, ladder[|ladder| - 1]) && CostsIn(o, ladder[|ladder| - 1])
    ensures AtRung(h, o, slack, ladder[k])
  {
    if k == 0 {
      BottomRung(h);
      BottomRung(o);
    } else {
      ClimbLadder(h, o, slack, ladder, k - 1);
      NoRungBetween(h, ladder, k);
      NoRungBetween(o, ladder, k);
      assert Total(AtLeast(ladder[k]), h) <= Total(AtLeast(ladder[k]), o) + slack;
      Rung(h, o, slack, ladder[k - 1], ladder[k]);
    }
  }

  lemma NoRungBetween(lots: seq<Lot>, ladder: seq<real>, k: nat)
    requires Sorted(ladder) && 0 < k < |ladder| && OnLadder(lots, ladder)
    ensures NoneBetween(lots, ladder[k - 1], ladder[k])
  {
    forall i | 0 <= i < |lots| ensures lots[i].cost <= ladder[k - 1] || lots[i].cost >= ladder[k] {
      assert lots[i].cost in ladder;
      var j :| 0 <= j < |ladder| && ladder[j] == lots[i].cost;
    }
  }

  lemma {:induction false} BottomRung(lots: seq<Lot>)
    requires forall i :: 0 <= i < |lots| ==> 0.0 < lots[i].cost
    ensures Total(Capped(0.0), lots) == 0.0
  {
    if |lots| > 0 {
      assert lots == lots[..|lots| - 1] + [lots[|lots| - 1]];
      TotalSnoc(Capped(0.0), lots[..|lots| - 1], lots[|lots| - 1]);
      BottomRung(lots[..|lots| - 1]);
    }
  }

  lemma {:induction false} TopRung(lots: seq<Lot>, top: real)
    requires CostsIn(lots, top)
    ensures Total(Capped(top), lots) == Total(Basis, lots)
  {
    if |lots| > 0 {
      assert lots == lots[..|lots| - 1] + [lots[|lots| - 1]];
      TotalSnoc(Capped(top), lots[..|lots| - 1], lots[|lots| - 1]);
      TotalSnoc(Basis, lots[..|lots| - 1], lots[|lots| - 1]);
      TopRung(lots[..|lots| - 1], top);
    }
  }

  lemma BuildLadder(h: seq<Lot>, o: seq<Lot>, top: real) returns (ladder: seq<real>)
    requires CostsIn(h, top) && CostsIn(o, top) && top >= 0.0
    ensures |ladder| > 0 && Sorted(ladder) && ladder[0] == 0.0 && ladder[|ladder| - 1] == top
    ensures OnLadder(h, ladder) && OnLadder(o, ladder)
  {
    ladder := AddCosts([0.0], h);
    ladder := AddCosts(ladder, o);
    ladder := AddRung(ladder, top);
    assert 0.0 in ladder && top in ladder;
    var a :| 0 <= a < |ladder| && ladder[a] == 0.0;
    var b :| 0 <= b < |ladder| && ladder[b] == top;
    assert ladder[0] in ladder && ladder[|ladder| - 1] in ladder;
  }

  /** Holding no more at every cost level means holding no more basis. */
  lemma BasisDominates(h: seq<Lot>, o: seq<Lot>, slack: real, top: real)
    requires Dominates(h, o, slack) && CostsIn(h, top) && CostsIn(o, top) && top >= 0.0
    ensures Total(Basis, h) <= Total(Basis, o) + slack * top
  {
    var ladder := BuildLadder(h, o, top);
    ClimbLadder(h, o, slack, ladder, |ladder| - 1);
    assert AtRung(h, o, slack, top);
    TopRung(h, top);
    TopRung(o, top);
  }

  // ---------------------------------------------------------------------------- whole histories

  /** Two runs of one history, the first under HIFO, after t days and c symbols of the next. */
  ghost predicate Twins(h: Book, o: Book, t: nat, c: nat) {
    && SamePath(h, o)
    && forall j :: 0 <= j < |h.lots| ==>
         && AllLive(h.lots[j]) && AllLive(o.lots[j]) && h.shares[j] >= 0.0
         && Dominates(h.lots[j], o.lots[j], Dusts(if j < c then t + 1 else t))
  }

  /** The dominance error after t sales of one symbol: two dust each. */
  ghost function Dusts(t: nat): (d: real)
    ensures d >= 0.0
  {
    2.0 * DustOf(t)
  }

  lemma DustsNext(t: nat)
    ensures Dusts(t + 1) == Dusts(t) + 2.0 * DUST
  {
    DustOfNext(t);
  }

  lemma SlackGrows(h: seq<Lot>, o: seq<Lot>, t: nat)
    requires Dominates(h, o, Dusts(t))
    ensures Dominates(h, o, Dusts(t + 1))
  {
    DustsNext(t);
    forall c: real ensures Total(AtLeast(c), h) <= Total(AtLeast(c), o) + Dusts(t + 1) {
      assert Total(AtLeast(c), h) <= Total(AtLeast(c), o) + Dusts(t);
    }
  }

  lemma SellTwins(h: Book, o: Book, t: nat, c: nat, qty: real, price: real, date: int, m: Policy)
    requires Twins(h, o, t, c) && c < |h.lots| && 0.0 <= qty <= h.shares[c]
    ensures Twins(SellFrom(h, c, qty, price, date, Rule(Hifo)), SellFrom(o, c, qty, price, date, m), t, c + 1)
  {
    hide Delivered, Dominates, AllLive, Dusts, Feasible;
    SoldStaysLive(h.lots[c], qty, Terms(price, date, c), Rule(Hifo));
    SoldStaysLive(o.lots[c], qty, Terms(price, date, c), m);
    SoldDominates(h.lots[c], o.lots[c], t, qty, Terms(price, date, c), m);
  }

  lemma SoldStaysLive(lots: seq<Lot>, qty: real, terms: Terms, m: Policy)
    requires AllLive(lots) && qty >= 0.0
    ensures AllLive(Live(Delivered(lots, qty, terms, m).lots))
  {
    SaleIsFeasible(lots, qty, terms, m);
    LiveLevel(0.0, Delivered(lots, qty, terms, m).lots);
  }

  lemma SoldDominates(h: seq<Lot>, o: seq<Lot>, t: nat, qty: real, terms: Terms, m: Policy)
    requires AllLive(h) && AllLive(o) && qty >= 0.0 && Dominates(h, o, Dusts(t))
    ensures Dominates(Live(Delivered(h, qty, terms, Rule(Hifo)).lots), Live(Delivered(o, qty, terms, m).lots), Dusts(t + 1))
  {
    hide Dominates, Dusts, Feasible, Delivered;
    DustsNext(t);
    SaleIsFeasible(o, qty, terms, m);
    var sale := Delivered(o, qty, terms, m);
    SaleDominates(h, o, Dusts(t), qty, sale.lots, sale.remaining, terms);
  }

  lemma BuyTwins(h: Book, o: Book, t: nat, c: nat, qty: real, price: real, date: int)
    requires Twins(h, o, t, c) && c < |h.lots| && qty > DUST
    ensures Twins(BuyInto(h, c, qty, price, date), BuyInto(o, c, qty, price, date), t, c + 1)
  {
    var lot := Lot(date, qty, price);
    SlackGrows(h.lots[c], o.lots[c], t);
    BuyDominates(h.lots[c], o.lots[c], Dusts(t + 1), lot);
  }

  lemma TradeTwins(h: Book, o: Book, t: nat, c: nat, day: Day, value: real, m: Policy)
    requires Twins(h, o, t, c) && c < |h.lots| && ShapedDay(day, |h.lots|)
    ensures Twins(Trade(h, c, day, value, Rule(Hifo)), Trade(o, c, day, value, m), t, c + 1)
  {
    match Decide(h.shares[c], day.prices[c], day.weights[c], value)
    case Hold => SlackGrows(h.lots[c], o.lots[c], t);
    case Sell(qty, p) => SellTwins(h, o, t, c, qty, p, day.date, m);
    case Buy(qty, p) => BuyTwins(h, o, t, c, qty, p, day.date);
  }

  lemma {:induction false} DayTwins(h: Book, o: Book, t: nat, c: nat, day: Day, value: real, m: Policy)
    requires Twins(h, o, t, c) && c <= |h.lots| && ShapedDay(day, |h.lots|)
    ensures Twins(TradeFrom(h, c, day, value, Rule(Hifo)), TradeFrom(o, c, day, value, m), t + 1, 0)
    decreases |h.lots| - c
  {
    if c < |h.lots| {
      TradeTwins(h, o, t, c, day, value, m);
      DayTwins(Trade(h, c, day, value, Rule(Hifo)), Trade(o, c, day, value, m), t, c + 1, day, value, m);
    }
  }

  lemma RebalanceTwins(h: Book, o: Book, t: nat, day: Day, m: Policy)
    requires Twins(h, o, t, 0) && ShapedDay(day, |h.lots|)
    ensures Twins(Rebalance(h, day, Rule(Hifo)), Rebalance(o, day, m), t + 1, 0)
  {
    DayTwins(h, o, t, 0, day, h.cash + Marked(h.shares, day.prices, |h.lots|), m);
  }

  lemma {:induction false} RunTwins(days: seq<Day>, t: nat, n: nat, capital: real, m: Policy)
    requires t <= |days| && ShapedDays(days, n)
    ensures Twins(RunTo(days, t, n, capital, Rule(Hifo)), RunTo(days, t, n, capital, m), t, 0)
  {
    if t > 0 {
      RunTwins(days, t - 1, n, capital, m);
      hide Rebalance, Twins;
      RebalanceTwins(RunTo(days, t - 1, n, capital, Rule(Hifo)), RunTo(days, t - 1, n, capital, m), t - 1, days[t - 1], m);
    }
  }

  /**
   After every date, at every cost level c, HIFO still holds no more shares bought at c or above than any
   other policy does, whatever shares of whatever lots it delivers at each sale, up to two dust per day.
   */
  lemma HifoHoldsFewestDearShares(days: seq<Day>, t: nat, n: nat, capital: real, m: Policy, j: nat, c: real)
    requires t <= |days| && ShapedDays(days, n) && j < n
    ensures Total(AtLeast(c), RunTo(days, t, n, capital, Rule(Hifo)).lots[j])
         <= Total(AtLeast(c), RunTo(days, t, n, capital, m).lots[j]) + 2.0 * DustOf(t)
  {
    RunTwins(days, t, n, capital, m);
    var h, o := RunTo(days, t, n, capital, Rule(Hifo)), RunTo(days, t, n, capital, m);
    assert Dominates(h.lots[j], o.lots[j], Dusts(t));
  }

  lemma BookBasisDominates(h: Book, o: Book, e: real)
    requires |h.lots| == |o.lots|
    requires forall j :: 0 <= j < |h.lots| ==> Total(Basis, h.lots[j]) <= Total(Basis, o.lots[j]) + e
    ensures AllTotal(Basis, h) <= AllTotal(Basis, o) + |h.lots| as real * e
  {
    var n := |h.lots|;
    var slack := seq(n, _ => e);
    SumMono(Totals(Basis, h), Plus(Totals(Basis, o), slack));
    SumPlus(Totals(Basis, o), slack);
    Constant(n, e);
  }

  lemma TwinBasis(h: Book, o: Book, t: nat, top: real)
    requires Twins(h, o, t, 0) && SoundTo(h, t, 0, top) && SoundTo(o, t, 0, top) && top >= 0.0
    ensures forall j :: 0 <= j < |h.lots| ==> Total(Basis, h.lots[j]) <= Total(Basis, o.lots[j]) + Dusts(t) * top
  {
    forall j | 0 <= j < |h.lots| ensures Total(Basis, h.lots[j]) <= Total(Basis, o.lots[j]) + Dusts(t) * top {
      assert Sound(h.lots[j], h.shares[j], t, top) && Sound(o.lots[j], o.shares[j], t, top);
      BasisDominates(h.lots[j], o.lots[j], Dusts(t), top);
    }
  }

  lemma RunBasis(days: seq<Day>, t: nat, n: nat, capital: real, m: Policy, top: real)
    requires t <= |days| && ShapedDays(days, n) && AllPricesIn(days, top) && top >= 0.0
    ensures AllTotal(Basis, RunTo(days, t, n, capital, Rule(Hifo)))
         <= AllTotal(Basis, RunTo(days, t, n, capital, m)) + 2.0 * DustMoney(top, t, n)
  {
    hide RunTo, SoundTo, Conserved, AllTotal, Dusts, AllPricesIn, DustMoney;
    var h, o := RunTo(days, t, n, capital, Rule(Hifo)), RunTo(days, t, n, capital, m);
    RunTwins(days, t, n, capital, m);
    RunKeeps(days, t, n, capital, Rule(Hifo), top);
    RunKeeps(days, t, n, capital, m, top);
    TwinBasis(h, o, t, top);
    BookBasisDominates(h, o, Dusts(t) * top);
    TwinSlack(top, t, n);
  }

  /**
   HIFO realizes the least gain: after every date, its cumulative realized gain exceeds that of any other
   policy on the same history, FIFO and LIFO among them, by at most eight dust per day and symbol, at the
   dearest price.
   */
  lemma HifoRealizesLeast(days: seq<Day>, t: nat, n: nat, capital: real, m: Policy, top: real)
    requires t <= |days| && ShapedDays(days, n) && AllPricesIn(days, top) && top >= 0.0
    ensures Realized(RunTo(days, t, n, capital, Rule(Hifo)))
         <= Realized(RunTo(days, t, n, capital, m)) + 8.0 * DustMoney(top, t, n)
  {
    hide RunTo, AllTotal, Realized, Dusts, AllPricesIn, DustMoney;
    TradePathIgnoresMethod(days, t, n, capital, Rule(Hifo), m);
    RunBasis(days, t, n, capital, m, top);
    LedgerConserved(days, t, n, capital, Rule(Hifo), top);
    LedgerConserved(days, t, n, capital, m, top);
  }

  lemma TwinSlack(top: real, t: nat, n: nat)
    ensures n as real * (Dusts(t) * top) == 2.0 * DustMoney(top, t, n)
  {
    var e := DustOf(t);
    assert Dusts(t) * top == 2.0 * (e * top);
    assert n as real * (2.0 * (e * top)) == 2.0 * (top * (n as real * e));
  }
}
