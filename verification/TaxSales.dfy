/** What one sale does to a list of lots, whatever its order; and what only the HIFO order does. */
module TaxSales {
  import opened Reals
  import opened TaxLots

  /** The state of the sale loop at position k: every share that left a lot was reported in an event,
      lots still ahead are untouched, and while anything remains to sell every lot behind is empty. */
  ghost predicate Underway(before: seq<Lot>, qty: real, order: seq<nat>, k: nat, sale: Sale, terms: Terms)
    requires k <= |order| && IsOrder(order, |before|)
  {
    && |sale.lots| == |before|
    && 0.0 <= sale.remaining <= qty
    && (forall i :: 0 <= i < |before| ==>
          && sale.lots[i].cost == before[i].cost && sale.lots[i].open == before[i].open
          && 0.0 <= sale.lots[i].shares <= before[i].shares)
    && (forall a :: k <= a < |order| ==> sale.lots[order[a]] == before[order[a]])
    && (sale.remaining > 0.0 ==> forall a :: 0 <= a < k ==> sale.lots[order[a]].shares == 0.0)
    && Total(Shares, sale.lots) == Total(Shares, before) - (qty - sale.remaining)
    && Total(Basis, sale.lots) + EventBasis(sale.events) == Total(Basis, before)
    && Taken(sale.events) == qty - sale.remaining
    && Proceeds(sale.events) == (qty - sale.remaining) * terms.price
    && 0.0 <= Total(Spent, sale.lots) <= DUST
    && (sale.remaining > 0.0 ==> Total(Spent, sale.lots) == 0.0)
  }

  lemma SpentOfLive(lots: seq<Lot>)
    requires AllLive(lots)
    ensures Total(Spent, lots) == 0.0
    decreases |lots|
  {
    if |lots| > 0 {
      assert lots == lots[..|lots| - 1] + [lots[|lots| - 1]];
      TotalSnoc(Spent, lots[..|lots| - 1], lots[|lots| - 1]);
      SpentOfLive(lots[..|lots| - 1]);
    }
  }

  lemma EventsSnoc(events: seq<Event>, e: Event)
    ensures Proceeds(events + [e]) == Proceeds(events) + e.proceeds
    ensures EventBasis(events + [e]) == EventBasis(events) + e.basis
    ensures Taken(events + [e]) == Taken(events) + e.shares
  {
    EventsAppend(events, [e]);
    var one := [e];
    assert seq(|one|, i requires 0 <= i < |one| => one[i].proceeds) == [e.proceeds];
    assert seq(|one|, i requires 0 <= i < |one| => one[i].basis) == [e.basis];
    assert seq(|one|, i requires 0 <= i < |one| => one[i].shares) == [e.shares];
    SumSnoc([], e.proceeds);
    SumSnoc([], e.basis);
    SumSnoc([], e.shares);
    assert [] + [e.proceeds] == [e.proceeds] && [] + [e.basis] == [e.basis] && [] + [e.shares] == [e.shares];
  }

  /** The books of one pass: what leaves the lot is what the event reports. */
  lemma TouchBooks(sale: Sale, i: nat, terms: Terms)
    requires i < |sale.lots| && sale.lots[i].shares > 0.0 && sale.remaining > 0.0
    ensures var take := Min(sale.lots[i].shares, sale.remaining);
      var next := Touch(sale, i, terms);
      && Total(Shares, next.lots) == Total(Shares, sale.lots) - take
      && Taken(next.events) == Taken(sale.events) + take
      && Proceeds(next.events) == Proceeds(sale.events) + take * terms.price
  {
    var lot := sale.lots[i];
    var take := Min(lot.shares, sale.remaining);
    var next := Touch(sale, i, terms);
    TotalUpdate(Shares, sale.lots, i, lot.(shares := lot.shares - take));
    EventsSnoc(sale.events, next.events[|sale.events|]);
  }

  lemma TouchBasis(sale: Sale, i: nat, terms: Terms)
    requires i < |sale.lots| && sale.lots[i].shares > 0.0 && sale.remaining > 0.0
    ensures var next := Touch(sale, i, terms);
      Total(Basis, next.lots) + EventBasis(next.events) == Total(Basis, sale.lots) + EventBasis(sale.events)
  {
    hide Total, EventBasis, Taken, Proceeds, Weigh, Report;
    var lot := sale.lots[i];
    var take := Min(lot.shares, sale.remaining);
    TotalUpdate(Basis, sale.lots, i, lot.(shares := lot.shares - take));
    EventsSnoc(sale.events, Report(lot, take, terms));
    TakenBasis(lot, take, terms);
  }

  lemma TouchSpent(sale: Sale, i: nat, terms: Terms)
    requires i < |sale.lots| && sale.lots[i].shares > DUST && sale.remaining > 0.0
    ensures var next := Touch(sale, i, terms);
      && Total(Spent, sale.lots) <= Total(Spent, next.lots) <= Total(Spent, sale.lots) + DUST
      && (next.remaining > 0.0 ==> Total(Spent, next.lots) == Total(Spent, sale.lots))
  {
    var lot := sale.lots[i];
    var take := Min(lot.shares, sale.remaining);
    TotalUpdate(Spent, sale.lots, i, lot.(shares := lot.shares - take));
  }

  lemma TouchKeeps(before: seq<Lot>, qty: real, order: seq<nat>, k: nat, sale: Sale, terms: Terms)
    requires k < |order| && IsOrder(order, |before|) && AllLive(before)
    requires Underway(before, qty, order, k, sale, terms) && sale.remaining > DUST
    ensures Underway(before, qty, order, k + 1, Touch(sale, order[k], terms), terms)
  {
    hide Total, Proceeds, EventBasis, Taken;
    var i := order[k];
    assert sale.lots[i] == before[i];
    TouchBooks(sale, i, terms);
    TouchBasis(sale, i, terms);
    TouchSpent(sale, i, terms);
    var take := Min(sale.lots[i].shares, sale.remaining);
    Distribute(qty - sale.remaining, take, terms.price);
  }

  lemma Distribute(x: real, y: real, p: real)
    ensures (x + y) * p == x * p + y * p
  {}

  lemma {:induction false} ConsumeKeeps(before: seq<Lot>, qty: real, order: seq<nat>, k: nat, sale: Sale, terms: Terms)
    returns (stop: nat)
    requires k <= |order| && IsOrder(order, |before|) && AllLive(before)
    requires Underway(before, qty, order, k, sale, terms)
    ensures var r := Consume(sale, order, k, terms);
      stop <= |order| && Underway(before, qty, order, stop, r, terms) && (stop == |order| || r.remaining <= DUST)
    decreases |order| - k
  {
    stop := k;
    if k < |order| && sale.remaining > DUST {
      TouchKeeps(before, qty, order, k, sale, terms);
      stop := ConsumeKeeps(before, qty, order, k + 1, Touch(sale, order[k], terms), terms);
    }
  }

  // ------------------------------------------------------------------------- dropping spent lots

  lemma LiveSnoc(m: Measure, init: seq<Lot>, last: Lot)
    ensures Total(m, Live(init + [last])) == Total(m, Live(init)) + (if last.shares > DUST then Weigh(m, last) else 0.0)
    ensures Total(m, init + [last]) == Total(m, init) + Weigh(m, last)
  {
    assert (init + [last])[..|init|] == init;
    TotalSnoc(m, Live(init), last);
    TotalSnoc(m, init, last);
  }

  /** Dropping spent lots costs every level at most the shares dropped. */
  lemma {:induction false} LiveLevel(c: real, lots: seq<Lot>)
    requires forall i :: 0 <= i < |lots| ==> 0.0 <= lots[i].shares
    ensures Total(AtLeast(c), lots) - Total(Spent, lots) <= Total(AtLeast(c), Live(lots)) <= Total(AtLeast(c), lots)
    ensures Total(Shares, Live(lots)) == Total(Shares, lots) - Total(Spent, lots)
    ensures AllLive(Live(lots))
  {
    if |lots| > 0 {
      var init, last := lots[..|lots| - 1], lots[|lots| - 1];
      assert lots == init + [last];
      LiveSnoc(AtLeast(c), init, last);
      LiveSnoc(Shares, init, last);
      LiveSnoc(Spent, init, last);
      LiveLevel(c, init);
    }
  }

  /** Dropping spent lots costs the book at most the shares dropped at the dearest cost. */
  lemma {:induction false} LiveBasis(top: real, lots: seq<Lot>)
    requires CostsIn(lots, top) && forall i :: 0 <= i < |lots| ==> 0.0 <= lots[i].shares
    ensures Total(Basis, lots) - top * Total(Spent, lots) <= Total(Basis, Live(lots)) <= Total(Basis, lots)
  {
    if |lots| > 0 {
      var init, last := lots[..|lots| - 1], lots[|lots| - 1];
      assert lots == init + [last];
      LiveBasis(top, init);
      LiveBasisSnoc(top, init, last);
    }
  }

  lemma LiveBasisSnoc(top: real, init: seq<Lot>, last: Lot)
    requires 0.0 <= last.shares && 0.0 <= last.cost <= top
    requires Total(Basis, init) - top * Total(Spent, init) <= Total(Basis, Live(init)) <= Total(Basis, init)
    ensures var lots := init + [last];
      Total(Basis, lots) - top * Total(Spent, lots) <= Total(Basis, Live(lots)) <= Total(Basis, lots)
  {
    hide *;
    LiveSnoc(Basis, init, last);
    LiveSnoc(Spent, init, last);
    SpentBasis(last, top);
    MulSum(top, Total(Spent, init + [last]), Total(Spent, init), Weigh(Spent, last));
  }

  lemma SpentBasis(lot: Lot, top: real)
    requires 0.0 <= lot.shares && 0.0 <= lot.cost <= top
    ensures 0.0 <= Weigh(Basis, lot)
    ensures lot.shares <= DUST ==> Weigh(Basis, lot) <= top * Weigh(Spent, lot)
    ensures lot.shares > DUST ==> top * Weigh(Spent, lot) == 0.0
  {
    MulMono(lot.shares, lot.cost, top);
    MulMono(lot.shares, 0.0, lot.cost);
  }

  lemma {:induction false} LiveCosts(lots: seq<Lot>, top: real)
    requires CostsIn(lots, top)
    ensures CostsIn(Live(lots), top)
  {
    if |lots| > 0 {
      LiveCosts(lots[..|lots| - 1], top);
    }
  }

  // ---------------------------------------------------------------------------- a feasible sale

  /** A feasible sale whose events account for exactly the shares and the basis that left the lots. */
  ghost predicate Settled(before: seq<Lot>, qty: real, sale: Sale, terms: Terms) {
    && Feasible(before, qty, sale.lots, sale.remaining)
    && Taken(sale.events) == qty - sale.remaining
    && Proceeds(sale.events) == (qty - sale.remaining) * terms.price
    && EventBasis(sale.events) == Total(Basis, before) - Total(Basis, sale.lots)
  }

  /** The dearest lots go first: none is touched while a dearer one still holds shares. */
  ghost predicate DearestFirst(before: seq<Lot>, mid: seq<Lot>) {
    && |mid| == |before|
    && forall i, j :: 0 <= i < |mid| && 0 <= j < |mid| && mid[i].shares > 0.0 && before[i].cost > before[j].cost
         ==> mid[j] == before[j]
  }

  lemma SaleStarts(lots: seq<Lot>, qty: real, order: seq<nat>, terms: Terms)
    requires AllLive(lots) && IsOrder(order, |lots|) && qty >= 0.0
    ensures Underway(lots, qty, order, 0, Sale(lots, [], qty), terms)
  {
    SpentOfLive(lots);
  }

  /** A sale that visits the lots in any order at all settles: which lots go first is a free choice. */
  lemma AnyOrderIsFeasible(lots: seq<Lot>, qty: real, order: seq<nat>, terms: Terms)
    requires AllLive(lots) && qty >= 0.0 && IsOrder(order, |lots|)
    ensures Settled(lots, qty, Consume(Sale(lots, [], qty), order, 0, terms), terms)
  {
    SaleStarts(lots, qty, order, terms);
    var stop := ConsumeKeeps(lots, qty, order, 0, Sale(lots, [], qty), terms);
    FinishedIsFeasible(lots, qty, order, stop, Consume(Sale(lots, [], qty), order, 0, terms), terms);
  }

  lemma FinishedIsFeasible(before: seq<Lot>, qty: real, order: seq<nat>, stop: nat, sale: Sale, terms: Terms)
    requires stop <= |order| && IsOrder(order, |before|)
    requires Underway(before, qty, order, stop, sale, terms)
    requires stop == |order| || sale.remaining <= DUST
    ensures Settled(before, qty, sale, terms)
  {
    if sale.remaining > DUST {
      forall i: nat | i < |before| ensures sale.lots[i].shares == 0.0 {
        assert i in order;
        var a :| 0 <= a < |order| && order[a] == i;
      }
    }
  }

  /** The first n lots of a split: what leaves them is what the events report. */
  ghost predicate SplitBooked(lots: seq<Lot>, amounts: seq<real>, terms: Terms, n: nat)
    requires n <= |lots| == |amounts|
  {
    var events := SplitEvents(lots, amounts, terms, n);
    && Taken(events) == Sum(amounts[..n]) && Proceeds(events) == Sum(amounts[..n]) * terms.price
    && EventBasis(events) == Total(Basis, lots[..n]) - Total(Basis, Reduced(lots, amounts)[..n])
  }

  lemma NothingSplit(lots: seq<Lot>, amounts: seq<real>, terms: Terms)
    requires |lots| == |amounts|
    ensures SplitBooked(lots, amounts, terms, 0)
  {
    assert SplitEvents(lots, amounts, terms, 0) == [];
    assert lots[..0] == [] == Reduced(lots, amounts)[..0] && amounts[..0] == [];
  }

  lemma TotalUpTo(m: Measure, lots: seq<Lot>, n: nat)
    requires 0 < n <= |lots|
    ensures Total(m, lots[..n]) == Total(m, lots[..n - 1]) + Weigh(m, lots[n - 1])
  {
    hide Total, Weigh;
    assert lots[..n] == lots[..n - 1] + [lots[n - 1]];
    TotalSnoc(m, lots[..n - 1], lots[n - 1]);
  }

  lemma SplitOne(lot: Lot, x: real)
    ensures Weigh(Basis, lot.(shares := lot.shares - x)) == Weigh(Basis, lot) - x * lot.cost
  {
    MulAdd(lot.cost, lot.shares, x);
  }

  lemma SameTimes(x: real, y: real, p: real)
    requires x == y
    ensures x * p == y * p
  {}

  lemma SplitNone(lots: seq<Lot>, amounts: seq<real>, terms: Terms, n: nat)
    requires 0 < n <= |lots| == |amounts| && amounts[n - 1] == 0.0
    requires SplitBooked(lots, amounts, terms, n - 1)
    ensures SplitBooked(lots, amounts, terms, n)
  {
    hide Total, Taken, Proceeds, EventBasis, Sum, Weigh;
    assert amounts[..n] == amounts[..n - 1] + [0.0];
    SumSnoc(amounts[..n - 1], 0.0);
    SameTimes(Sum(amounts[..n]), Sum(amounts[..n - 1]), terms.price);
    TotalUpTo(Basis, lots, n);
    TotalUpTo(Basis, Reduced(lots, amounts), n);
    assert Reduced(lots, amounts)[n - 1] == lots[n - 1];
  }

  lemma SplitCash(lots: seq<Lot>, amounts: seq<real>, terms: Terms, n: nat)
    requires 0 < n <= |lots| == |amounts| && amounts[n - 1] > 0.0 && SplitBooked(lots, amounts, terms, n - 1)
    ensures var events := SplitEvents(lots, amounts, terms, n);
      Taken(events) == Sum(amounts[..n]) && Proceeds(events) == Sum(amounts[..n]) * terms.price
  {
    hide Total, Taken, Proceeds, EventBasis, Sum, Weigh, Reduced;
    var x, sum := amounts[n - 1], Sum(amounts[..n - 1]);
    assert amounts[..n] == amounts[..n - 1] + [x];
    SumSnoc(amounts[..n - 1], x);
    EventsSnoc(SplitEvents(lots, amounts, terms, n - 1), Report(lots[n - 1], x, terms));
    Distribute(sum, x, terms.price);
    SameTimes(Sum(amounts[..n]), sum + x, terms.price);
  }

  lemma SplitBasis(lots: seq<Lot>, amounts: seq<real>, terms: Terms, n: nat)
    requires 0 < n <= |lots| == |amounts| && amounts[n - 1] > 0.0 && SplitBooked(lots, amounts, terms, n - 1)
    ensures EventBasis(SplitEvents(lots, amounts, terms, n))
         == Total(Basis, lots[..n]) - Total(Basis, Reduced(lots, amounts)[..n])
  {
    hide Total, Taken, Proceeds, EventBasis, Sum, Weigh;
    var lot, x, mid := lots[n - 1], amounts[n - 1], Reduced(lots, amounts);
    assert mid[n - 1] == lot.(shares := lot.shares - x);
    TotalUpTo(Basis, lots, n);
    TotalUpTo(Basis, mid, n);
    var e := Report(lot, x, terms);
    TakenBasis(lot, x, terms);
    EventsSnoc(SplitEvents(lots, amounts, terms, n - 1), e);
    assert SplitEvents(lots, amounts, terms, n) == SplitEvents(lots, amounts, terms, n - 1) + [e];
    hide Report, SplitEvents, Reduced;
  }

  lemma TakenBasis(lot: Lot, x: real, terms: Terms)
    ensures Weigh(Basis, lot.(shares := lot.shares - x)) == Weigh(Basis, lot) - Report(lot, x, terms).basis
  {
    SplitOne(lot, x);
  }

  lemma SplitSome(lots: seq<Lot>, amounts: seq<real>, terms: Terms, n: nat)
    requires 0 < n <= |lots| == |amounts| && amounts[n - 1] > 0.0
    requires SplitBooked(lots, amounts, terms, n - 1)
    ensures SplitBooked(lots, amounts, terms, n)
  {
    SplitCash(lots, amounts, terms, n);
    SplitBasis(lots, amounts, terms, n);
    hide Total, Taken, Proceeds, EventBasis, Sum, SplitEvents, Reduced;
  }

  lemma {:induction false} SplitBooks(lots: seq<Lot>, amounts: seq<real>, terms: Terms, n: nat)
    requires n <= |lots| == |amounts| && forall i :: 0 <= i < |lots| ==> amounts[i] >= 0.0
    ensures SplitBooked(lots, amounts, terms, n)
  {
    hide SplitBooked;
    if n == 0 {
      NothingSplit(lots, amounts, terms);
    } else {
      SplitBooks(lots, amounts, terms, n - 1);
      if amounts[n - 1] == 0.0 {
        SplitNone(lots, amounts, terms, n);
      } else {
        SplitSome(lots, amounts, terms, n);
      }
    }
  }

  lemma SplitSettles(lots: seq<Lot>, qty: real, terms: Terms, amounts: seq<real>)
    requires Splits(lots, qty, amounts)
    ensures Settled(lots, qty, Sale(Reduced(lots, amounts), SplitEvents(lots, amounts, terms, |lots|), qty - Sum(amounts)), terms)
  {
    hide Total, Sum, Taken, Proceeds, EventBasis;
    var mid := Reduced(lots, amounts);
    forall i | 0 <= i < |lots| ensures amounts[i] >= 0.0 {
      assert mid[i].shares <= lots[i].shares;
    }
    SplitBooks(lots, amounts, terms, |lots|);
    assert amounts[..|lots|] == amounts && lots[..|lots|] == lots && mid[..|lots|] == mid;
  }

  /** Every policy's sale settles. */
  lemma SaleIsFeasible(lots: seq<Lot>, qty: real, terms: Terms, p: Policy)
    requires AllLive(lots) && qty >= 0.0
    ensures Settled(lots, qty, Delivered(lots, qty, terms, p), terms)
  {
    hide Settled, Feasible, Consume, IsOrder;
    match p
    case Rule(m) =>
      OrderIsComplete(lots, m);
      AnyOrderIsFeasible(lots, qty, LotOrder(lots, m), terms);
    case Split(choose) =>
      OrderIsComplete(lots, Fifo);
      AnyOrderIsFeasible(lots, qty, LotOrder(lots, Fifo), terms);
      if Splits(lots, qty, choose(lots, qty, terms)) {
        SplitSettles(lots, qty, terms, choose(lots, qty, terms));
      }
  }

  /** No lot is touched while one that comes before it in the order still holds shares. */
  ghost predicate InTurn(before: seq<Lot>, order: seq<nat>, mid: seq<Lot>)
    requires |mid| == |before| && InRange(order, |before|)
  {
    forall a, b :: 0 <= a < b < |order| && mid[order[a]].shares > 0.0 ==> mid[order[b]] == before[order[b]]
  }

  /** Ahead of position k everything is untouched; behind it, a lot that still holds shares is the last. */
  ghost predicate OnlyLastPartial(order: seq<nat>, k: nat, sale: Sale)
    requires k <= |order| && InRange(order, |sale.lots|)
  {
    forall a :: 0 <= a < k - 1 ==> sale.lots[order[a]].shares == 0.0
  }

  lemma {:induction false} ConsumesInTurn(before: seq<Lot>, qty: real, order: seq<nat>, k: nat, sale: Sale, terms: Terms)
    requires k <= |order| && IsOrder(order, |before|) && AllLive(before)
    requires Underway(before, qty, order, k, sale, terms) && OnlyLastPartial(order, k, sale)
    ensures InTurn(before, order, Consume(sale, order, k, terms).lots)
    decreases |order| - k
  {
    if k < |order| && sale.remaining > DUST {
      TouchKeeps(before, qty, order, k, sale, terms);
      ConsumesInTurn(before, qty, order, k + 1, Touch(sale, order[k], terms), terms);
    }
  }

  /** The source's methods deliver the lots in turn. */
  lemma RuleSellsInTurn(lots: seq<Lot>, qty: real, terms: Terms, m: Method)
    requires AllLive(lots) && qty >= 0.0
    ensures IsOrder(LotOrder(lots, m), |lots|) && InTurn(lots, LotOrder(lots, m), Delivered(lots, qty, terms, Rule(m)).lots)
  {
    var order := LotOrder(lots, m);
    OrderIsComplete(lots, m);
    SaleStarts(lots, qty, order, terms);
    ConsumesInTurn(lots, qty, order, 0, Sale(lots, [], qty), terms);
  }

  lemma Position(order: seq<nat>, n: nat, i: nat) returns (a: nat)
    requires IsOrder(order, n) && i < n
    ensures a < |order| && order[a] == i
  {
    assert i in order;
    a :| 0 <= a < |order| && order[a] == i;
  }

  /** A HIFO sale touches no lot while a dearer one, or an older one of the same cost, still holds shares. */
  lemma HifoIsDearestFirst(lots: seq<Lot>, qty: real, terms: Terms)
    requires AllLive(lots) && qty >= 0.0
    ensures var mid := Delivered(lots, qty, terms, Rule(Hifo)).lots;
      && DearestFirst(lots, mid)
      && forall i, j :: 0 <= i < j < |mid| && lots[i].cost == lots[j].cost && mid[i].shares > 0.0 ==> mid[j] == lots[j]
  {
    var mid, order := Delivered(lots, qty, terms, Rule(Hifo)).lots, LotOrder(lots, Hifo);
    OrderIsComplete(lots, Hifo);
    RuleSellsInTurn(lots, qty, terms, Hifo);
    hide Delivered, LotOrder, IsOrder;
    forall i: nat, j: nat
      | i < |lots| && j < |lots| && mid[i].shares > 0.0
        && (lots[i].cost > lots[j].cost || (lots[i].cost == lots[j].cost && i < j))
      ensures mid[j] == lots[j]
    {
      var a := Position(order, |lots|, i);
      var b := Position(order, |lots|, j);
      assert a < b;
    }
  }

  /** A FIFO sale touches no lot while an older one still holds shares. */
  lemma FifoIsOldestFirst(lots: seq<Lot>, qty: real, terms: Terms)
    requires AllLive(lots) && qty >= 0.0
    ensures var mid := Delivered(lots, qty, terms, Rule(Fifo)).lots;
      forall i, j :: 0 <= i < j < |mid| && mid[i].shares > 0.0 ==> mid[j] == lots[j]
  {
    RuleSellsInTurn(lots, qty, terms, Fifo);
    hide Delivered;
    var order := LotOrder(lots, Fifo);
    var mid := Delivered(lots, qty, terms, Rule(Fifo)).lots;
    forall i, j | 0 <= i < j < |lots| && mid[i].shares > 0.0 ensures mid[j] == lots[j] {
      assert order[i] == i && order[j] == j;
    }
  }

  /** A LIFO sale touches no lot while a newer one still holds shares. */
  lemma LifoIsNewestFirst(lots: seq<Lot>, qty: real, terms: Terms)
    requires AllLive(lots) && qty >= 0.0
    ensures var mid := Delivered(lots, qty, terms, Rule(Lifo)).lots;
      forall i, j :: 0 <= i < j < |mid| && mid[j].shares > 0.0 ==> mid[i] == lots[i]
  {
    RuleSellsInTurn(lots, qty, terms, Lifo);
    hide Delivered;
    var n, order := |lots|, LotOrder(lots, Lifo);
    var mid := Delivered(lots, qty, terms, Rule(Lifo)).lots;
    forall i, j | 0 <= i < j < n && mid[j].shares > 0.0 ensures mid[i] == lots[i] {
      assert order[n - 1 - j] == j && order[n - 1 - i] == i;
    }
  }

  /** What an event says of the lot it was taken from. */
  ghost predicate Describes(e: Event, lot: Lot, terms: Terms) {
    && 0.0 < e.shares <= lot.shares && e.proceeds == e.shares * terms.price && e.basis == e.shares * lot.cost
    && e.date == terms.date && e.symbol == terms.symbol && e.holdingDays == terms.date - lot.open
    && (e.longTerm <==> terms.date >= lot.open + 365) && !e.disallowed
  }

  ghost predicate EventsDescribe(lots: seq<Lot>, events: seq<Event>, terms: Terms) {
    forall k :: 0 <= k < |events| ==> exists i :: 0 <= i < |lots| && Describes(events[k], lots[i], terms)
  }

  lemma TouchDescribes(before: seq<Lot>, qty: real, order: seq<nat>, k: nat, sale: Sale, terms: Terms)
    requires k < |order| && IsOrder(order, |before|) && Underway(before, qty, order, k, sale, terms)
    requires EventsDescribe(before, sale.events, terms)
    ensures EventsDescribe(before, Touch(sale, order[k], terms).events, terms)
  {
    hide Total, Taken, Proceeds, EventBasis;
    var i := order[k];
    var next := Touch(sale, i, terms);
    assert sale.lots[i] == before[i];
    forall j | 0 <= j < |next.events| ensures exists i :: 0 <= i < |before| && Describes(next.events[j], before[i], terms) {
      if j == |sale.events| {
        assert Describes(next.events[j], before[i], terms);
      } else {
        assert next.events[j] == sale.events[j];
      }
    }
  }

  lemma {:induction false} ConsumeDescribes(before: seq<Lot>, qty: real, order: seq<nat>, k: nat, sale: Sale, terms: Terms)
    requires k <= |order| && IsOrder(order, |before|) && AllLive(before)
    requires Underway(before, qty, order, k, sale, terms) && EventsDescribe(before, sale.events, terms)
    ensures EventsDescribe(before, Consume(sale, order, k, terms).events, terms)
    decreases |order| - k
  {
    if k < |order| && sale.remaining > DUST {
      TouchKeeps(before, qty, order, k, sale, terms);
      TouchDescribes(before, qty, order, k, sale, terms);
      ConsumeDescribes(before, qty, order, k + 1, Touch(sale, order[k], terms), terms);
    }
  }

  /**
   Every event of a sale is about one of the lots held: no more than its shares, at its cost and the sale's price,
   long-term exactly when it was held for a year.
   */
  lemma SaleEventsDescribeLots(lots: seq<Lot>, qty: real, terms: Terms, m: Method)
    requires AllLive(lots) && qty >= 0.0
    ensures EventsDescribe(lots, Delivered(lots, qty, terms, Rule(m)).events, terms)
  {
    hide EventsDescribe;
    var order := LotOrder(lots, m);
    OrderIsComplete(lots, m);
    SaleStarts(lots, qty, order, terms);
    NothingDescribed(lots, terms);
    ConsumeDescribes(lots, qty, order, 0, Sale(lots, [], qty), terms);
  }

  lemma NothingDescribed(lots: seq<Lot>, terms: Terms)
    ensures EventsDescribe(lots, [], terms)
  {}

  // ------------------------------------------------------------- how a sale moves each cost level

  lemma {:induction false} LevelNonNegative(c: real, lots: seq<Lot>)
    requires forall i :: 0 <= i < |lots| ==> 0.0 <= lots[i].shares
    ensures 0.0 <= Total(AtLeast(c), lots)
  {
    if |lots| > 0 {
      assert lots == lots[..|lots| - 1] + [lots[|lots| - 1]];
      TotalSnoc(AtLeast(c), lots[..|lots| - 1], lots[|lots| - 1]);
      LevelNonNegative(c, lots[..|lots| - 1]);
    }
  }

  /** No feasible sale takes more than `qty` (and one dust) out of a cost level. */
  lemma FeasibleFloor(before: seq<Lot>, qty: real, mid: seq<Lot>, unsold: real, c: real)
    requires Feasible(before, qty, mid, unsold)
    ensures Total(AtLeast(c), Live(mid)) >= Max(0.0, Total(AtLeast(c), before) - qty) - DUST
  {
    LiveLevel(c, mid);
    LevelNonNegative(c, Live(mid));
    // what left the level is at most what left all lots
    LevelLoss(before, mid, c);
  }

  lemma {:induction false} LevelLoss(before: seq<Lot>, mid: seq<Lot>, c: real)
    requires |mid| == |before|
    requires forall i :: 0 <= i < |before| ==> mid[i].cost == before[i].cost && mid[i].shares <= before[i].shares
    ensures Total(AtLeast(c), before) - Total(AtLeast(c), mid) <= Total(Shares, before) - Total(Shares, mid)
    ensures (forall i :: 0 <= i < |before| && before[i].cost < c ==> mid[i] == before[i]) ==>
      Total(AtLeast(c), before) - Total(AtLeast(c), mid) == Total(Shares, before) - Total(Shares, mid)
    ensures (forall i :: 0 <= i < |mid| && mid[i].cost >= c ==> mid[i].shares == 0.0) ==> Total(AtLeast(c), mid) == 0.0
  {
    if |before| > 0 {
      var n := |before| - 1;
      assert before == before[..n] + [before[n]] && mid == mid[..n] + [mid[n]];
      TotalSnoc(AtLeast(c), before[..n], before[n]);
      TotalSnoc(AtLeast(c), mid[..n], mid[n]);
      TotalSnoc(Shares, before[..n], before[n]);
      TotalSnoc(Shares, mid[..n], mid[n]);
      LevelLoss(before[..n], mid[..n], c);
    }
  }

  /** A dearest-first sale takes all it can out of every cost level. */
  lemma DearestCeiling(before: seq<Lot>, qty: real, mid: seq<Lot>, unsold: real, c: real)
    requires Feasible(before, qty, mid, unsold) && DearestFirst(before, mid)
    ensures Total(AtLeast(c), Live(mid)) <= Max(0.0, Total(AtLeast(c), before) - qty) + DUST
  {
    LiveLevel(c, mid);
    LevelNonNegative(c, mid);
    LevelLoss(before, mid, c);
    if exists i :: 0 <= i < |mid| && mid[i].cost >= c && mid[i].shares > 0.0 {
      var i :| 0 <= i < |mid| && mid[i].cost >= c && mid[i].shares > 0.0;
      assert forall j :: 0 <= j < |mid| && before[j].cost < c ==> before[i].cost > before[j].cost;
    }
  }
}
