/**
 The rebalancing simulator (research/mds/taxaware.py, `simulate`): a long book walked through a price
 history, every trade accounted lot by lot.

 `Book` is the simulator's local state as a value and `RunFrom` what a run does to it. `Simulator` is the
 same state updated in place, one method per step of the source, each proved against its function.
 */
module TaxSimulation {
  import opened Reals
  import opened TaxLots

  /** A rebalance smaller than this many shares is not traded (1e-9). */
  const MIN_TRADE: real := 0.000000001

  /** One row of the input: a price per symbol (None when it is not finite) and a target weight. */
  datatype Day = Day(date: int, prices: seq<Option<real>>, weights: seq<real>)

  datatype Book = Book(lots: seq<seq<Lot>>, shares: seq<real>, cash: real, events: seq<Event>, buys: seq<(int, nat)>)

  predicate Shaped(b: Book, n: nat) {
    |b.lots| == n && |b.shares| == n
  }

  predicate ShapedDay(day: Day, n: nat) {
    |day.prices| == n && |day.weights| == n
  }

  predicate ShapedDays(days: seq<Day>, n: nat) {
    forall t :: 0 <= t < |days| ==> ShapedDay(days[t], n)
  }

  function Opening(n: nat, capital: real): Book {
    Book(seq(n, _ => []), seq(n, _ => 0.0), capital, [], [])
  }

  function MarketValue(held: real, price: real): real {
    held * price
  }

  /** Market value of the first n holdings whose price is finite. */
  function Marked(shares: seq<real>, prices: seq<Option<real>>, n: nat): real
    requires n <= |shares| && n <= |prices|
  {
    if n == 0 then 0.0
    else
      var here := if prices[n - 1].Some? then MarketValue(shares[n - 1], prices[n - 1].value) else 0.0;
      Marked(shares, prices, n - 1) + here
  }

  function SellFrom(b: Book, c: nat, qty: real, price: real, date: int, m: Policy): Book
    requires c < |b.lots| && c < |b.shares|
  {
    var sale := Delivered(b.lots[c], qty, Terms(price, date, c), m);
    Book(b.lots[c := Live(sale.lots)], b.shares[c := b.shares[c] - qty], b.cash + qty * price,
         b.events + sale.events, b.buys)
  }

  function BuyInto(b: Book, c: nat, qty: real, price: real, date: int): Book
    requires c < |b.lots| && c < |b.shares|
  {
    Book(b.lots[c := b.lots[c] + [Lot(date, qty, price)]], b.shares[c := b.shares[c] + qty],
         b.cash - qty * price, b.events, b.buys + [(date, c)])
  }

  /** The change in shares that brings symbol c to its target weight of `value`. */
  function Delta(held: real, weight: real, value: real, price: real): real
    requires price > 0.0
  {
    Max(weight, 0.0) * value / price - held
  }

  datatype Action = Hold | Sell(qty: real, price: real) | Buy(qty: real, price: real)

  /** What to do about one symbol: trim towards the target, add to it, or leave it. */
  function Decide(held: real, price: Option<real>, weight: real, value: real): (a: Action)
    ensures a.Sell? ==> DUST < a.qty <= held && price == Some(a.price)
    ensures a.Buy? ==> MIN_TRADE < a.qty && 0.0 < a.price && price == Some(a.price)
  {
    match price
    case None => Hold
    case Some(p) =>
      if p <= 0.0 then Hold
      else
        var delta := Delta(held, weight, value, p);
        if delta < -MIN_TRADE then
          var qty := Min(-delta, held);
          if qty > DUST then Sell(qty, p) else Hold
        else if delta > MIN_TRADE then Buy(delta, p)
        else Hold
  }

  function Trade(b: Book, c: nat, day: Day, value: real, m: Policy): Book
    requires c < |b.lots| && c < |b.shares| && c < |day.prices| && c < |day.weights|
  {
    match Decide(b.shares[c], day.prices[c], day.weights[c], value)
    case Hold => b
    case Sell(qty, p) => SellFrom(b, c, qty, p, day.date, m)
    case Buy(qty, p) => BuyInto(b, c, qty, p, day.date)
  }

  /** The rest of one day's trades, from symbol c on. */
  function TradeFrom(b: Book, c: nat, day: Day, value: real, m: Policy): (r: Book)
    requires Shaped(b, |b.lots|) && ShapedDay(day, |b.lots|) && c <= |b.lots|
    ensures Shaped(r, |b.lots|)
    decreases |b.lots| - c
  {
    if c == |b.lots| then b else TradeFrom(Trade(b, c, day, value, m), c + 1, day, value, m)
  }

  function Rebalance(b: Book, day: Day, m: Policy): (r: Book)
    requires Shaped(b, |b.lots|) && ShapedDay(day, |b.lots|)
    ensures Shaped(r, |b.lots|)
  {
    TradeFrom(b, 0, day, b.cash + Marked(b.shares, day.prices, |b.lots|), m)
  }

  /** The book after the first t days. */
  function RunTo(days: seq<Day>, t: nat, n: nat, capital: real, m: Policy): (r: Book)
    requires t <= |days| && ShapedDays(days, n)
    ensures Shaped(r, n)
  {
    if t == 0 then Opening(n, capital) else Rebalance(RunTo(days, t - 1, n, capital, m), days[t - 1], m)
  }

  /** The closing sale of symbol c, if it is held and priced. */
  function CloseOut(b: Book, c: nat, day: Day, m: Policy): (r: Book)
    requires c < |b.lots| == |b.shares| && c < |day.prices|
    ensures |r.lots| == |b.lots| && |r.shares| == |b.shares|
  {
    if b.shares[c] > DUST && day.prices[c].Some? then SellFrom(b, c, b.shares[c], day.prices[c].value, day.date, m) else b
  }

  /** The closing sales of `liquidate_end`, for the first c symbols. */
  function LiquidateTo(b: Book, c: nat, day: Day, m: Policy): (r: Book)
    requires Shaped(b, |b.lots|) && ShapedDay(day, |b.lots|) && c <= |b.lots|
    ensures Shaped(r, |b.lots|)
  {
    if c == 0 then b else CloseOut(LiquidateTo(b, c - 1, day, m), c - 1, day, m)
  }

  /** Unrealized gain of the first n symbols at the last prices. */
  function UnrealizedTo(b: Book, prices: seq<Option<real>>, n: nat): real
    requires n <= |b.lots| && n <= |b.shares| && n <= |prices|
  {
    if n == 0 then 0.0
    else
      var open := b.shares[n - 1] > DUST && prices[n - 1].Some?;
      var here := if open then MarketValue(b.shares[n - 1], prices[n - 1].value) - Total(Basis, b.lots[n - 1]) else 0.0;
      UnrealizedTo(b, prices, n - 1) + here
  }

  class Simulator {
    var lots: seq<seq<Lot>>
    var shares: seq<real>
    var cash: real
    var events: seq<Event>
    var buys: seq<(int, nat)>

    ghost function View(): Book
      reads this
    {
      Book(lots, shares, cash, events, buys)
    }

    constructor (n: nat, capital: real)
      ensures View() == Opening(n, capital)
    {
      lots, shares, cash := seq(n, _ => []), seq(n, _ => 0.0), capital;
      events, buys := [], [];
    }

    /** Consumes `qty` shares of one symbol's lots in `m` order, shrinking and then dropping lots. */
    method SellLots(c: nat, qty: real, price: real, date: int, m: Method)
      requires c < |lots|
      modifies this`lots, this`events
      ensures var sale := Delivered(old(lots[c]), qty, Terms(price, date, c), Rule(m));
        lots == old(lots)[c := Live(sale.lots)] && events == old(events) + sale.events
    {
      hide Live, LotOrder, Report;
      var terms := Terms(price, date, c);
      ghost var target := Delivered(lots[c], qty, terms, Rule(m));
      var order := LotOrder(lots[c], m);
      var mine: seq<Event> := [];
      var remaining := qty;
      var k := 0;
      while k < |order| && remaining > DUST
        invariant k <= |order| && |lots| == |old(lots)| && InRange(order, |lots[c]|)
        invariant forall j :: 0 <= j < |lots| && j != c ==> lots[j] == old(lots)[j]
        invariant events == old(events)
        invariant Consume(Sale(lots[c], mine, remaining), order, k, terms) == target
      {
        var i := order[k];
        var lot := lots[c][i];
        ghost var before := Sale(lots[c], mine, remaining);
        var take := Min(lot.shares, remaining);
        if take > 0.0 {
          mine := mine + [Report(lot, take, terms)];
          lots := lots[c := lots[c][i := lot.(shares := lot.shares - take)]];
          remaining := remaining - take;
        }
        assert Sale(lots[c], mine, remaining) == Touch(before, i, terms);
        k := k + 1;
      }
      lots := lots[c := Live(lots[c])];
      events := events + mine;
      assert lots == old(lots)[c := Live(target.lots)];
    }

    /** A sale with its effect on the holding and on cash. */
    method SellOff(c: nat, qty: real, price: real, date: int, m: Method)
      requires Shaped(View(), |lots|) && c < |lots|
      modifies this
      ensures View() == SellFrom(old(View()), c, qty, price, date, Rule(m)) && Shaped(View(), old(|lots|))
    {
      SellLots(c, qty, price, date, m);
      shares := shares[c := shares[c] - qty];
      cash := cash + qty * price;
    }

    method Buy(c: nat, qty: real, price: real, date: int)
      requires Shaped(View(), |lots|) && c < |lots|
      modifies this
      ensures View() == BuyInto(old(View()), c, qty, price, date)
    {
      cash := cash - qty * price;
      lots := lots[c := lots[c] + [Lot(date, qty, price)]];
      shares := shares[c := shares[c] + qty];
      buys := buys + [(date, c)];
    }

    /** One symbol's rebalancing trade. */
    method TradeSymbol(c: nat, day: Day, value: real, m: Method)
      requires Shaped(View(), |lots|) && ShapedDay(day, |lots|) && c < |lots|
      modifies this
      ensures View() == Trade(old(View()), c, day, value, Rule(m)) && Shaped(View(), old(|lots|))
    {
      if day.prices[c].None? || day.prices[c].value <= 0.0 {
        return;
      }
      var p := day.prices[c].value;
      var delta := Delta(shares[c], day.weights[c], value, p);
      if delta < -MIN_TRADE {
        var qty := Min(-delta, shares[c]);
        if qty > DUST {
          SellOff(c, qty, p, day.date, m);
        }
      } else if delta > MIN_TRADE {
        Buy(c, delta, p, day.date);
      }
    }

    /** One date: value the book, then bring each symbol to its target in turn. */
    method Step(day: Day, m: Method)
      requires Shaped(View(), |lots|) && ShapedDay(day, |lots|)
      modifies this
      ensures View() == Rebalance(old(View()), day, Rule(m)) && Shaped(View(), old(|lots|))
    {
      var n := |lots|;
      var held := 0.0;
      var i := 0;
      while i < n
        invariant i <= n && unchanged(this) && held == Marked(shares, day.prices, i)
      {
        if day.prices[i].Some? {
          held := held + MarketValue(shares[i], day.prices[i].value);
        }
        i := i + 1;
      }
      var value := cash + held;
      var c := 0;
      while c < n
        invariant c <= n && Shaped(View(), n)
        invariant TradeFrom(View(), c, day, value, Rule(m)) == Rebalance(old(View()), day, Rule(m))
      {
        TradeSymbol(c, day, value, m);
        c := c + 1;
      }
    }

    method Liquidate(day: Day, m: Method)
      requires Shaped(View(), |lots|) && ShapedDay(day, |lots|)
      modifies this
      ensures View() == LiquidateTo(old(View()), old(|lots|), day, Rule(m)) && Shaped(View(), old(|lots|))
    {
      hide SellFrom;
      var n := |lots|;
      var c := 0;
      while c < n
        invariant c <= n && Shaped(View(), n)
        invariant View() == LiquidateTo(old(View()), c, day, Rule(m))
      {
        if shares[c] > DUST && day.prices[c].Some? {
          SellOff(c, shares[c], day.prices[c].value, day.date, m);
        }
        c := c + 1;
      }
    }
  }

  /** The whole simulation: the final book and the unrealized gain it reports. */
  method Simulate(days: seq<Day>, n: nat, capital: real, m: Method, liquidateEnd: bool)
    returns (final: Book, unrealized: real)
    requires |days| > 0 && ShapedDays(days, n)
    ensures var held := RunTo(days, |days|, n, capital, Rule(m));
      final == if liquidateEnd then LiquidateTo(held, n, days[|days| - 1], Rule(m)) else held
    ensures unrealized == UnrealizedTo(final, days[|days| - 1].prices, n)
  {
    hide Rebalance, LiquidateTo, UnrealizedTo;
    var sim := new Simulator(n, capital);
    var t := 0;
    while t < |days|
      invariant t <= |days| && sim.View() == RunTo(days, t, n, capital, Rule(m))
    {
      sim.Step(days[t], m);
      t := t + 1;
    }
    var last := days[|days| - 1];
    if liquidateEnd {
      sim.Liquidate(last, m);
    }
    final := Book(sim.lots, sim.shares, sim.cash, sim.events, sim.buys);
    unrealized := Unrealized(final, last.prices);
  }

  /** Unrealized gain of every open position with a finite price. */
  method Unrealized(b: Book, prices: seq<Option<real>>) returns (u: real)
    requires Shaped(b, |prices|)
    ensures u == UnrealizedTo(b, prices, |prices|)
  {
    u := 0.0;
    for c := 0 to |prices|
      invariant u == UnrealizedTo(b, prices, c)
    {
      if b.shares[c] > DUST && prices[c].Some? {
        u := u + (MarketValue(b.shares[c], prices[c].value) - Total(Basis, b.lots[c]));
      }
    }
  }
}
