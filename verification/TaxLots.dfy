/**
 Tax lots and the sale that consumes them (research/mds/taxaware.py, `_lot_order` and `_sell`).

 Every purchase is its own lot. A sale walks the lots in the order its method dictates, shrinking each
 one in place, stops once no more than DUST shares remain to be sold, and finally drops every lot that
 holds no more than DUST shares.
 */
module TaxLots {
  import opened Reals

  /** The share threshold below which a remainder or a lot is ignored (1e-12). */
  const DUST: real := 0.000000000001
  const LONG_TERM_DAYS: int := 365

  datatype Lot = Lot(open: int, shares: real, cost: real)

  datatype Method = Fifo | Lifo | Hifo

  datatype Event = Event(date: int, symbol: nat, shares: real, proceeds: real, basis: real,
                         holdingDays: int, longTerm: bool, disallowed: bool)
  {
    function Gain(): real { proceeds - basis }
  }

  /** A sale in progress: the lots as shrunk so far, the events emitted, and the shares still to sell. */
  datatype Sale = Sale(lots: seq<Lot>, events: seq<Event>, remaining: real)

  /** The terms a sale is made on. */
  datatype Terms = Terms(price: real, date: int, symbol: nat)

  /** What decides which lots a sale delivers: one of the source's methods, or any other choice of how many shares
      to take from each lot, made anew at every sale from the lots held, the quantity and the terms. */
  datatype Policy = Rule(rule: Method) | Split(amounts: (seq<Lot>, real, Terms) -> seq<real>)

  // ---------------------------------------------------------------------------------- lot order

  predicate InRange(order: seq<nat>, n: nat) {
    forall a :: 0 <= a < |order| ==> order[a] < n
  }

  /** Stable insertion of lot i into an order sorted by descending cost. */
  function InsertByCost(lots: seq<Lot>, order: seq<nat>, i: nat): (r: seq<nat>)
    requires i < |lots| && InRange(order, |lots|)
    ensures forall n: nat :: i < n && InRange(order, n) ==> InRange(r, n)
  {
    if |order| == 0 then [i]
    else
      var init, last := order[..|order| - 1], order[|order| - 1];
      assert forall n: nat :: InRange(order, n) ==> InRange(init, n) && last < n;
      if lots[last].cost >= lots[i].cost then order + [i]
      else InsertByCost(lots, init, i) + [last]
  }

  /** The first n lots, highest cost first, earlier lots first among equals. */
  function ByCost(lots: seq<Lot>, n: nat): (order: seq<nat>)
    requires n <= |lots|
    ensures InRange(order, n)
  {
    if n == 0 then [] else
      InsertByCost(lots, ByCost(lots, n - 1), n - 1)
  }

  function OldestFirst(n: nat): (order: seq<nat>)
    ensures InRange(order, n)
  {
    seq(n, i => i)
  }

  function LotOrder(lots: seq<Lot>, m: Method): (order: seq<nat>)
    ensures InRange(order, |lots|)
  {
    match m
    case Fifo => OldestFirst(|lots|)
    case Lifo => seq(|lots|, i requires 0 <= i < |lots| => |lots| - 1 - i)
    case Hifo => ByCost(lots, |lots|)
  }

  /** Every index below n occurs, and no index occurs twice. */
  ghost predicate IsOrder(order: seq<nat>, n: nat) {
    && |order| == n
    && InRange(order, n)
    && (forall a, b :: 0 <= a < b < |order| ==> order[a] != order[b])
    && (forall i: nat :: i < n ==> i in order)
  }

  ghost predicate Descending(lots: seq<Lot>, order: seq<nat>)
    requires InRange(order, |lots|)
  {
    forall a, b :: 0 <= a < b < |order| ==>
      lots[order[a]].cost > lots[order[b]].cost || (lots[order[a]].cost == lots[order[b]].cost && order[a] < order[b])
  }

  lemma {:induction false} InsertMembers(lots: seq<Lot>, order: seq<nat>, i: nat)
    requires i < |lots| && InRange(order, |lots|)
    ensures |InsertByCost(lots, order, i)| == |order| + 1
    ensures forall j: nat :: j in InsertByCost(lots, order, i) <==> j in order || j == i
  {
    if |order| > 0 {
      var init, last := order[..|order| - 1], order[|order| - 1];
      assert order == init + [last];
      InsertMembers(lots, init, i);
    }
  }

  lemma SnocSorted(lots: seq<Lot>, inner: seq<nat>, last: nat)
    requires last < |lots| && InRange(inner, |lots|) && Descending(lots, inner)
    requires forall a :: 0 <= a < |inner| ==>
               lots[inner[a]].cost > lots[last].cost || (lots[inner[a]].cost == lots[last].cost && inner[a] < last)
    ensures InRange(inner + [last], |lots|) && Descending(lots, inner + [last])
  {}

  /** A newer lot goes in behind every lot that costs as much. */
  lemma {:induction false} InsertSorted(lots: seq<Lot>, order: seq<nat>, i: nat)
    requires i < |lots| && InRange(order, |lots|)
    requires Descending(lots, order) && forall a :: 0 <= a < |order| ==> order[a] < i
    ensures InRange(InsertByCost(lots, order, i), |lots|)
    ensures Descending(lots, InsertByCost(lots, order, i))
  {
    if |order| > 0 {
      var init, last := order[..|order| - 1], order[|order| - 1];
      if lots[last].cost < lots[i].cost {
        InsertSorted(lots, init, i);
        InsertMembers(lots, init, i);
        var inner := InsertByCost(lots, init, i);
        forall a | 0 <= a < |inner|
          ensures lots[inner[a]].cost > lots[last].cost || (lots[inner[a]].cost == lots[last].cost && inner[a] < last)
        {
          assert inner[a] in inner;
          if inner[a] != i {
            var j :| 0 <= j < |init| && init[j] == inner[a];
            assert order[j] == inner[a];
          }
        }
        SnocSorted(lots, inner, last);
      } else {
        forall a | 0 <= a < |order|
          ensures lots[order[a]].cost > lots[i].cost || (lots[order[a]].cost == lots[i].cost && order[a] < i)
        {
          assert lots[order[a]].cost >= lots[last].cost;
        }
        SnocSorted(lots, order, i);
      }
    }
  }

  lemma DescendingIsDistinct(lots: seq<Lot>, order: seq<nat>)
    requires InRange(order, |lots|) && Descending(lots, order)
    ensures forall a, b :: 0 <= a < b < |order| ==> order[a] != order[b]
  {}

  lemma OneMore(prev: seq<nat>, r: seq<nat>, n: nat)
    requires n > 0 && IsOrder(prev, n - 1) && |r| == n
    requires forall j: nat :: j in r <==> j in prev || j == n - 1
    requires forall a, b :: 0 <= a < b < |r| ==> r[a] != r[b]
    ensures IsOrder(r, n)
  {
    forall a | 0 <= a < |r| ensures r[a] < n {
      assert r[a] in r;
    }
  }

  lemma {:induction false} ByCostSorted(lots: seq<Lot>, n: nat)
    requires n <= |lots|
    ensures IsOrder(ByCost(lots, n), n) && Descending(lots, ByCost(lots, n))
  {
    if n > 0 {
      ByCostSorted(lots, n - 1);
      var prev := ByCost(lots, n - 1);
      BelowRange(prev, n - 1);
      hide InsertByCost, Descending, IsOrder;
      InsertMembers(lots, prev, n - 1);
      InsertSorted(lots, prev, n - 1);
      DescendingIsDistinct(lots, ByCost(lots, n));
      OneMore(prev, ByCost(lots, n), n);
    }
  }

  lemma BelowRange(order: seq<nat>, n: nat)
    requires IsOrder(order, n)
    ensures |order| == n && forall a :: 0 <= a < |order| ==> order[a] < n
  {}

  /** Every method visits every lot exactly once, and HIFO visits them by descending cost. */
  lemma OrderIsComplete(lots: seq<Lot>, m: Method)
    ensures IsOrder(LotOrder(lots, m), |lots|)
    ensures m == Hifo ==> Descending(lots, LotOrder(lots, m))
  {
    match m
    case Fifo =>
      var order := LotOrder(lots, Fifo);
      forall i: nat | i < |lots| ensures i in order { assert order[i] == i; }
    case Lifo =>
      var order := LotOrder(lots, Lifo);
      forall i: nat | i < |lots| ensures i in order { assert order[|lots| - 1 - i] == i; }
    case Hifo =>
      ByCostSorted(lots, |lots|);
  }

  // --------------------------------------------------------------------------------------- sale

  /** The event that reports `take` shares of a lot delivered. */
  function Report(lot: Lot, take: real, terms: Terms): Event {
    var hold := terms.date - lot.open;
    Event(terms.date, terms.symbol, take, take * terms.price, take * lot.cost, hold, hold >= LONG_TERM_DAYS, false)
  }

  /** One pass of the sale loop: deliver what lot i can cover. */
  function Touch(sale: Sale, i: nat, terms: Terms): Sale
    requires i < |sale.lots|
  {
    var lot := sale.lots[i];
    var take := Min(lot.shares, sale.remaining);
    if take <= 0.0 then sale
    else
      Sale(sale.lots[i := lot.(shares := lot.shares - take)],
           sale.events + [Report(lot, take, terms)], sale.remaining - take)
  }

  /** The sale loop from position k of the order on. */
  function Consume(sale: Sale, order: seq<nat>, k: nat, terms: Terms): (r: Sale)
    requires k <= |order| && InRange(order, |sale.lots|)
    ensures |r.lots| == |sale.lots|
    decreases |order| - k
  {
    if k == |order| || sale.remaining <= DUST then sale
    else Consume(Touch(sale, order[k], terms), order, k + 1, terms)
  }

  /** The lots a sale leaves in the list. */
  function Live(lots: seq<Lot>): seq<Lot> {
    if |lots| == 0 then []
    else
      var rest := Live(lots[..|lots| - 1]);
      if lots[|lots| - 1].shares > DUST then rest + [lots[|lots| - 1]] else rest
  }

  // ----------------------------------------------------------------------------------- measures

  /** What a lot contributes to a total: its shares, those of them at or above a cost, its basis, its
      basis with the cost capped, or its shares if it is spent. */
  datatype Measure = Shares | AtLeast(c: real) | Basis | Capped(m: real) | Spent

  function Weigh(m: Measure, lot: Lot): real {
    match m
    case Shares => lot.shares
    case AtLeast(c) => if lot.cost >= c then lot.shares else 0.0
    case Basis => lot.shares * lot.cost
    case Capped(cap) => lot.shares * Min(lot.cost, cap)
    case Spent => if lot.shares <= DUST then lot.shares else 0.0
  }

  function Weights(m: Measure, lots: seq<Lot>): seq<real> {
    seq(|lots|, i requires 0 <= i < |lots| => Weigh(m, lots[i]))
  }

  function Total(m: Measure, lots: seq<Lot>): real {
    Sum(Weights(m, lots))
  }

  lemma TotalUpdate(m: Measure, lots: seq<Lot>, i: nat, lot: Lot)
    requires i < |lots|
    ensures Total(m, lots[i := lot]) == Total(m, lots) - Weigh(m, lots[i]) + Weigh(m, lot)
  {
    assert Weights(m, lots[i := lot]) == Weights(m, lots)[i := Weigh(m, lot)];
    SumUpdate(Weights(m, lots), i, Weigh(m, lot));
  }

  lemma TotalSnoc(m: Measure, lots: seq<Lot>, lot: Lot)
    ensures Total(m, lots + [lot]) == Total(m, lots) + Weigh(m, lot)
  {
    assert Weights(m, lots + [lot]) == Weights(m, lots) + [Weigh(m, lot)];
    SumSnoc(Weights(m, lots), Weigh(m, lot));
  }

  // ----------------------------------------------------------------------------------- whole sales

  /**
   `mid` is what some legitimate choice of lots leaves of `before` when `qty` is to be sold: no lot
   grew or changed its basis, `unsold` is what could not be (or was not worth being) delivered, and
   more than DUST stays unsold only when every lot is gone.
   */
  predicate Feasible(before: seq<Lot>, qty: real, mid: seq<Lot>, unsold: real) {
    && |mid| == |before|
    && (forall i :: 0 <= i < |before| ==>
          mid[i].cost == before[i].cost && 0.0 <= mid[i].shares <= before[i].shares)
    && 0.0 <= unsold <= qty
    && Total(Shares, mid) == Total(Shares, before) - (qty - unsold)
    && 0.0 <= Total(Spent, mid) <= DUST
    && (unsold > 0.0 ==> Total(Spent, mid) == 0.0)
    && (unsold > DUST ==> forall i :: 0 <= i < |mid| ==> mid[i].shares == 0.0)
  }

  /** The lots after so many shares are taken from each. */
  function Reduced(lots: seq<Lot>, amounts: seq<real>): (r: seq<Lot>)
    requires |amounts| == |lots|
    ensures |r| == |lots|
  {
    seq(|lots|, i requires 0 <= i < |lots| => lots[i].(shares := lots[i].shares - amounts[i]))
  }

  /** The events of taking them from the first n lots. */
  function SplitEvents(lots: seq<Lot>, amounts: seq<real>, terms: Terms, n: nat): seq<Event>
    requires n <= |lots| == |amounts|
  {
    if n == 0 then []
    else
      var before := SplitEvents(lots, amounts, terms, n - 1);
      if amounts[n - 1] > 0.0 then before + [Report(lots[n - 1], amounts[n - 1], terms)] else before
  }

  /** The amounts leave what a legitimate sale of `qty` leaves. */
  predicate Splits(lots: seq<Lot>, qty: real, amounts: seq<real>) {
    |amounts| == |lots| && Feasible(lots, qty, Reduced(lots, amounts), qty - Sum(amounts))
  }

  /** The whole of a sale before dropping spent lots. Amounts that no sale could take are ignored, and the oldest
      lots go first. */
  function Delivered(lots: seq<Lot>, qty: real, terms: Terms, p: Policy): (r: Sale)
    ensures |r.lots| == |lots|
  {
    match p
    case Rule(m) => Consume(Sale(lots, [], qty), LotOrder(lots, m), 0, terms)
    case Split(choose) =>
      var amounts := choose(lots, qty, terms);
      if Splits(lots, qty, amounts)
      then Sale(Reduced(lots, amounts), SplitEvents(lots, amounts, terms, |lots|), qty - Sum(amounts))
      else Consume(Sale(lots, [], qty), OldestFirst(|lots|), 0, terms)
  }

  /** Lots as the simulator keeps them between sales. */
  ghost predicate AllLive(lots: seq<Lot>) {
    forall i :: 0 <= i < |lots| ==> lots[i].shares > DUST
  }

  ghost predicate CostsIn(lots: seq<Lot>, top: real) {
    forall i :: 0 <= i < |lots| ==> 0.0 < lots[i].cost <= top
  }

  function Taken(events: seq<Event>): real { Sum(seq(|events|, i requires 0 <= i < |events| => events[i].shares)) }
  function Proceeds(events: seq<Event>): real { Sum(seq(|events|, i requires 0 <= i < |events| => events[i].proceeds)) }
  function EventBasis(events: seq<Event>): real { Sum(seq(|events|, i requires 0 <= i < |events| => events[i].basis)) }

  lemma EventsAppend(a: seq<Event>, b: seq<Event>)
    ensures Proceeds(a + b) == Proceeds(a) + Proceeds(b)
    ensures EventBasis(a + b) == EventBasis(a) + EventBasis(b)
    ensures Taken(a + b) == Taken(a) + Taken(b)
  {
    var c := a + b;
    assert seq(|c|, i requires 0 <= i < |c| => c[i].proceeds)
        == seq(|a|, i requires 0 <= i < |a| => a[i].proceeds) + seq(|b|, i requires 0 <= i < |b| => b[i].proceeds);
    assert seq(|c|, i requires 0 <= i < |c| => c[i].basis)
        == seq(|a|, i requires 0 <= i < |a| => a[i].basis) + seq(|b|, i requires 0 <= i < |b| => b[i].basis);
    assert seq(|c|, i requires 0 <= i < |c| => c[i].shares)
        == seq(|a|, i requires 0 <= i < |a| => a[i].shares) + seq(|b|, i requires 0 <= i < |b| => b[i].shares);
    SumAppend(seq(|a|, i requires 0 <= i < |a| => a[i].proceeds), seq(|b|, i requires 0 <= i < |b| => b[i].proceeds));
    SumAppend(seq(|a|, i requires 0 <= i < |a| => a[i].basis), seq(|b|, i requires 0 <= i < |b| => b[i].basis));
    SumAppend(seq(|a|, i requires 0 <= i < |a| => a[i].shares), seq(|b|, i requires 0 <= i < |b| => b[i].shares));
  }
}
