/**
 Average-cost accounting of tagged fills (research/service/strategies.py, `apply_fill`, `position_pnl` and
 `attribute`): cash is conserved through every sequence of opens, adds, reductions and flips, fees cost
 exactly their rate on every dollar traded, and partial executions can be merged.
 */
module FillBook {
  import opened Reals

  /** A symbol's book: signed position, average cost of what is open, and P&L booked on reductions. */
  datatype Book = Book(qty: real, avgCost: real, realized: real)

  datatype Fill = Fill(buy: bool, qty: real, price: real)

  const EMPTY := Book(0.0, 0.0, 0.0)

  function Signed(f: Fill): real {
    if f.buy then f.qty else -f.qty
  }

  /** The price paid or received per unit with the fee included. */
  function NetPrice(price: real, buying: bool, fee: real): real {
    if buying then price * (1.0 + fee) else price * (1.0 - fee)
  }

  predicate SameWay(pos: real, signed: real) {
    pos == 0.0 || ((pos > 0.0) == (signed > 0.0))
  }

  /** Average cost after adding `added` at `eff` to `held` at `avg`, `total` being what is then held. */
  function Blend(avg: real, held: real, eff: real, added: real, total: real): real
    requires total != 0.0
  {
    (avg * held + eff * added) / total
  }

  /** P&L of closing so much of a long (1.0) or short (-1.0) position. */
  function Booked(closing: real, exit: real, avg: real, direction: real): real {
    closing * (exit - avg) * direction
  }

  /** Opening, or adding in the same direction: the average cost blends. */
  function Add(b: Book, signed: real, eff: real): Book {
    var newQty := b.qty + signed;
    var avg := if newQty != 0.0 then Blend(b.avgCost, Abs(b.qty), eff, Abs(signed), Abs(newQty)) else b.avgCost;
    Book(newQty, avg, b.realized)
  }

  /** Reducing, closing or flipping: the closed part is realized, a flipped remainder opens anew. */
  function Reduce(b: Book, signed: real, exit: real, entry: real): Book {
    var closing := Min(Abs(signed), Abs(b.qty));
    var direction := if b.qty > 0.0 then 1.0 else -1.0;
    var realized := b.realized + Booked(closing, exit, b.avgCost, direction);
    var remaining := Abs(signed) - closing;
    var avg := if Abs(b.qty) > closing then b.avgCost else if remaining > 0.0 then entry else 0.0;
    Book(b.qty + signed, avg, realized)
  }

  /** The book after one fill at a per-side fee. */
  function Apply(b: Book, f: Fill, fee: real): Book {
    var signed := Signed(f);
    var entry := NetPrice(f.price, signed > 0.0, fee);
    if SameWay(b.qty, signed) then Add(b, signed, entry)
    else Reduce(b, signed, NetPrice(f.price, b.qty < 0.0, fee), entry)
  }

  function ApplyAll(b: Book, fills: seq<Fill>, fee: real): Book {
    if |fills| == 0 then b else Apply(ApplyAll(b, fills[..|fills| - 1], fee), fills[|fills| - 1], fee)
  }

  class SymbolBook {
    var qty: real
    var avgCost: real
    var realized: real

    ghost function View(): Book
      reads this
    {
      Book(qty, avgCost, realized)
    }

    constructor ()
      ensures View() == EMPTY
    {
      qty, avgCost, realized := 0.0, 0.0, 0.0;
    }

    method ApplyFill(f: Fill, fee: real)
      modifies this
      ensures View() == Apply(old(View()), f, fee)
    {
      hide Blend, Booked, NetPrice;
      var signed := if f.buy then f.qty else -f.qty;
      var pos := qty;
      if pos == 0.0 || ((pos > 0.0) == (signed > 0.0)) {
        var eff := NetPrice(f.price, signed > 0.0, fee);
        var newQty := pos + signed;
        if newQty != 0.0 {
          avgCost := Blend(avgCost, Abs(pos), eff, Abs(signed), Abs(newQty));
        }
        qty := newQty;
        return;
      }
      var closing := Min(Abs(signed), Abs(pos));
      var direction := if pos > 0.0 then 1.0 else -1.0;
      var exit := NetPrice(f.price, pos < 0.0, fee);
      realized := realized + Booked(closing, exit, avgCost, direction);
      var remaining := Abs(signed) - closing;
      qty := pos + signed;
      if Abs(pos) > closing {
        return;
      }
      avgCost := if remaining > 0.0 then NetPrice(f.price, signed > 0.0, fee) else 0.0;
    }
  }

  /** A raw fill as reported: either part may be missing, and such a fill is skipped, as is an empty one. */
  datatype RawFill = RawFill(buy: bool, qty: Option<real>, price: Option<real>)

  function Usable(raw: seq<RawFill>): seq<Fill> {
    if |raw| == 0 then []
    else
      var r := raw[|raw| - 1];
      var rest := Usable(raw[..|raw| - 1]);
      if r.price.None? || r.qty.None? || r.qty.value == 0.0 then rest
      else rest + [Fill(r.buy, r.qty.value, r.price.value)]
  }

  /** Fills are taken one by one in the order reported, as reported; those without a price or a quantity are skipped. */
  lemma {:induction false} UsableIs(before: seq<RawFill>, r: RawFill, after: seq<RawFill>)
    ensures var skipped := r.price == None || r.qty == None || r.qty == Some(0.0);
      Usable(before + [r] + after)
        == Usable(before) + (if skipped then [] else [Fill(r.buy, r.qty.value, r.price.value)]) + Usable(after)
  {
    var raw := before + [r] + after;
    if |after| == 0 {
      assert raw == before + [r] && raw[..|raw| - 1] == before;
    } else {
      assert raw[..|raw| - 1] == before + [r] + after[..|after| - 1];
      UsableIs(before, r, after[..|after| - 1]);
    }
  }

  /** Reduces a symbol's fills, in order, to its book. */
  method PositionPnl(raw: seq<RawFill>, fee: real) returns (b: Book)
    ensures b == ApplyAll(EMPTY, Usable(raw), fee)
  {
    var book := new SymbolBook();
    var i := 0;
    while i < |raw|
      invariant i <= |raw| && book.View() == ApplyAll(EMPTY, Usable(raw[..i]), fee)
    {
      var r := raw[i];
      assert raw[..i + 1][..i] == raw[..i];
      if r.price.Some? && r.qty.Some? && r.qty.value != 0.0 {
        var f := Fill(r.buy, r.qty.value, r.price.value);
        ghost var done := Usable(raw[..i]);
        assert (done + [f])[..|done|] == done;
        book.ApplyFill(f, fee);
      }
      i := i + 1;
    }
    assert raw[..|raw|] == raw;
    b := Book(book.qty, book.avgCost, book.realized);
  }

  // -------------------------------------------------------------------------- cash is conserved

  /** Cash received on a fill, fee included (negative on a purchase). */
  function CashFlow(f: Fill, fee: real): real {
    -(Signed(f) * NetPrice(f.price, Signed(f) > 0.0, fee))
  }

  function TotalCash(fills: seq<Fill>, fee: real): real {
    if |fills| == 0 then 0.0 else TotalCash(fills[..|fills| - 1], fee) + CashFlow(fills[|fills| - 1], fee)
  }

  /** P&L booked less the cost of what is still open. */
  function Worth(b: Book): real {
    b.realized - b.qty * b.avgCost
  }

  lemma AddKeepsCash(b: Book, signed: real, eff: real)
    requires SameWay(b.qty, signed)
    ensures Worth(Add(b, signed, eff)) == Worth(b) - signed * eff
  {
    var newQty := b.qty + signed;
    if newQty != 0.0 {
      assert Abs(newQty) == Abs(b.qty) + Abs(signed);
      DivMul(b.avgCost * Abs(b.qty) + eff * Abs(signed), Abs(newQty));
      hide Abs;
      BlendCash(b.qty, signed, b.avgCost, eff, Add(b, signed, eff).avgCost, newQty);
    } else {
      assert b.qty == 0.0 && signed == 0.0;
    }
  }

  lemma BlendCash(pos: real, signed: real, avg: real, eff: real, avg': real, newQty: real)
    requires newQty == pos + signed && newQty != 0.0 && SameWay(pos, signed)
    requires avg' * Abs(newQty) == avg * Abs(pos) + eff * Abs(signed)
    ensures newQty * avg' == pos * avg + signed * eff
  {
    if newQty > 0.0 {
      assert Abs(pos) == pos && Abs(signed) == signed;
    } else {
      assert Abs(pos) == -pos && Abs(signed) == -signed;
    }
  }

  lemma ReduceKeepsCash(b: Book, signed: real, price: real)
    requires !SameWay(b.qty, signed)
    ensures Worth(Reduce(b, signed, price, price)) == Worth(b) - signed * price
  {
    var closing := Min(Abs(signed), Abs(b.qty));
    var gain := closing * (price - b.avgCost);
    MulAdd(closing, price, b.avgCost);
    var b' := Reduce(b, signed, price, price);
    if b.qty > 0.0 {
      assert b'.realized == b.realized + gain;
      LongReduced(b.qty, signed, closing, b.avgCost, price, b'.avgCost);
    } else {
      assert b'.realized == b.realized - gain;
      ShortReduced(b.qty, signed, closing, b.avgCost, price, b'.avgCost);
    }
  }

  lemma LongReduced(pos: real, signed: real, closing: real, avg: real, price: real, avg': real)
    requires pos > 0.0 && signed <= 0.0 && closing == Min(-signed, pos)
    requires avg' == if pos > closing then avg else if -signed > closing then price else 0.0
    ensures closing * price - closing * avg - (pos + signed) * avg' == -(pos * avg) - signed * price
  {
    if pos > closing {
      assert closing == -signed && (pos + signed) * avg == pos * avg + signed * avg;
    } else {
      assert closing == pos && (pos + signed) * avg' == pos * price + signed * price;
    }
  }

  lemma ShortReduced(pos: real, signed: real, closing: real, avg: real, price: real, avg': real)
    requires pos < 0.0 && signed > 0.0 && closing == Min(signed, -pos)
    requires avg' == if -pos > closing then avg else if signed > closing then price else 0.0
    ensures -(closing * price - closing * avg) - (pos + signed) * avg' == -(pos * avg) - signed * price
  {
    if -pos > closing {
      assert closing == signed && (pos + signed) * avg == pos * avg + signed * avg;
    } else {
      assert closing == -pos && (pos + signed) * avg' == pos * price + signed * price;
    }
  }

  /** One fill moves realized-less-cost by exactly the cash it paid, whichever branch it takes. */
  lemma FillConservesCash(b: Book, f: Fill, fee: real)
    ensures Worth(Apply(b, f, fee)) == Worth(b) + CashFlow(f, fee)
  {
    var signed := Signed(f);
    hide Add, Reduce, Worth, NetPrice;
    if SameWay(b.qty, signed) {
      AddKeepsCash(b, signed, NetPrice(f.price, signed > 0.0, fee));
    } else if signed == 0.0 {
      assert b.qty > 0.0;
      NothingReduced(b, NetPrice(f.price, false, fee));
    } else {
      assert (b.qty < 0.0) == (signed > 0.0);
      ReduceKeepsCash(b, signed, NetPrice(f.price, signed > 0.0, fee));
    }
  }

  lemma NothingReduced(b: Book, price: real)
    requires b.qty > 0.0
    ensures Worth(Reduce(b, 0.0, price, price)) == Worth(b) && 0.0 * price == 0.0
  {}

  /** Over every sequence of fills the book explains exactly the cash that moved. */
  lemma {:induction false} FillsConserveCash(fills: seq<Fill>, fee: real)
    ensures Worth(ApplyAll(EMPTY, fills, fee)) == TotalCash(fills, fee)
  {
    if |fills| > 0 {
      FillsConserveCash(fills[..|fills| - 1], fee);
      FillConservesCash(ApplyAll(EMPTY, fills[..|fills| - 1], fee), fills[|fills| - 1], fee);
    }
  }

  // ------------------------------------------------------------------------------ what fees cost

  function Position(fills: seq<Fill>): real {
    if |fills| == 0 then 0.0 else Position(fills[..|fills| - 1]) + Signed(fills[|fills| - 1])
  }

  /** Dollars traded, whichever way. */
  function Notional(fills: seq<Fill>): real {
    if |fills| == 0 then 0.0
    else Notional(fills[..|fills| - 1]) + Abs(Signed(fills[|fills| - 1])) * fills[|fills| - 1].price
  }

  lemma {:induction false} FeesDoNotMovePosition(fills: seq<Fill>, fee: real)
    ensures ApplyAll(EMPTY, fills, fee).qty == Position(fills)
  {
    if |fills| > 0 {
      FeesDoNotMovePosition(fills[..|fills| - 1], fee);
    }
  }

  /** Liquidation value of an open position: the mark net of the fee to close it. */
  function Unrealized(b: Book, mark: real, fee: real): real {
    if b.qty == 0.0 then 0.0 else b.qty * (NetPrice(mark, b.qty < 0.0, fee) - b.avgCost)
  }

  function TotalPnl(b: Book, mark: real, fee: real): real {
    b.realized + Unrealized(b, mark, fee)
  }

  /** Proceeds of closing a position of `qty` at the mark, net of the fee. */
  function Liquidation(qty: real, mark: real, fee: real): real {
    qty * NetPrice(mark, qty < 0.0, fee)
  }

  lemma PnlIsCashPlusLiquidation(b: Book, mark: real, fee: real)
    ensures TotalPnl(b, mark, fee) == Worth(b) + Liquidation(b.qty, mark, fee)
  {
    MulAdd(b.qty, NetPrice(mark, b.qty < 0.0, fee), b.avgCost);
  }

  lemma PnlOfFills(fills: seq<Fill>, mark: real, fee: real)
    ensures TotalPnl(ApplyAll(EMPTY, fills, fee), mark, fee) == TotalCash(fills, fee) + Liquidation(Position(fills), mark, fee)
  {
    hide TotalPnl, Worth, Liquidation, TotalCash, Position;
    FillsConserveCash(fills, fee);
    FeesDoNotMovePosition(fills, fee);
    PnlIsCashPlusLiquidation(ApplyAll(EMPTY, fills, fee), mark, fee);
  }

  lemma FeeOnFill(f: Fill, fee: real)
    ensures CashFlow(f, fee) == CashFlow(f, 0.0) - fee * (Abs(Signed(f)) * f.price)
  {
    var s, p := Signed(f), f.price;
    MulAdd(p, 1.0, fee);
    if s > 0.0 {
      assert s * (p + p * fee) == s * p + fee * (s * p);
    } else {
      assert s * (p - p * fee) == s * p - fee * (s * p);
      assert fee * (-s * p) == -(fee * (s * p));
    }
  }

  lemma CashSnoc(init: seq<Fill>, last: Fill, fee: real)
    ensures TotalCash(init + [last], fee) == TotalCash(init, fee) + CashFlow(last, fee)
    ensures Notional(init + [last]) == Notional(init) + Abs(Signed(last)) * last.price
  {
    assert (init + [last])[..|init|] == init;
  }

  /** Fee-free cash less the fee on every dollar traded. */
  function FreeLessFee(fills: seq<Fill>, fee: real): real {
    TotalCash(fills, 0.0) - fee * Notional(fills)
  }

  lemma FeesOnCashSnoc(init: seq<Fill>, last: Fill, fee: real)
    requires TotalCash(init, fee) == FreeLessFee(init, fee)
    ensures TotalCash(init + [last], fee) == FreeLessFee(init + [last], fee)
  {
    hide TotalCash, Notional, CashFlow, Signed, Abs;
    CashSnoc(init, last, fee);
    CashSnoc(init, last, 0.0);
    FeeOnFill(last, fee);
    MulSum(fee, Notional(init + [last]), Notional(init), Abs(Signed(last)) * last.price);
  }

  lemma {:induction false} FeesOnCash(fills: seq<Fill>, fee: real)
    ensures TotalCash(fills, fee) == FreeLessFee(fills, fee)
  {
    if |fills| > 0 {
      assert fills == fills[..|fills| - 1] + [fills[|fills| - 1]];
      hide TotalCash, FreeLessFee;
      FeesOnCash(fills[..|fills| - 1], fee);
      FeesOnCashSnoc(fills[..|fills| - 1], fills[|fills| - 1], fee);
    }
  }

  lemma CashLessFee(fills: seq<Fill>, fee: real)
    ensures TotalCash(fills, fee) == TotalCash(fills, 0.0) - fee * Notional(fills)
  {
    hide TotalCash, Notional;
    FeesOnCash(fills, fee);
  }

  /**
   Fees cost exactly their rate: total P&L at a fee is the fee-free P&L less the fee on every dollar traded
   and on the dollars it takes to close what is open.
   */
  lemma FeeDrag(fills: seq<Fill>, mark: real, fee: real)
    ensures TotalPnl(ApplyAll(EMPTY, fills, fee), mark, fee)
         == TotalPnl(ApplyAll(EMPTY, fills, 0.0), mark, 0.0) - fee * (Notional(fills) + Abs(Position(fills)) * mark)
  {
    hide *;
    CashLessFee(fills, fee);
    PnlOfFills(fills, mark, fee);
    PnlOfFills(fills, mark, 0.0);
    LiquidationFee(Position(fills), mark, fee);
    MulAdd(fee, Notional(fills), Abs(Position(fills)) * mark);
  }

  lemma LiquidationFee(qty: real, mark: real, fee: real)
    ensures Liquidation(qty, mark, fee) == Liquidation(qty, mark, 0.0) - fee * (Abs(qty) * mark)
  {
    FeeOnFill(Fill(true, -qty, mark), fee);
    if qty == 0.0 {
      assert 0.0 * NetPrice(mark, false, fee) == 0.0 && 0.0 * NetPrice(mark, false, 0.0) == 0.0;
    }
  }

  // --------------------------------------------------------------------- what each fill may change

  /**
   Average-cost accounting, without its formulas: every fill moves the quantity and the book's worth by what was
   traded and paid; a fill that opens or adds books nothing, one that reduces leaves the average cost alone, and one
   that flips the position carries the rest at its own price.
   */
  ghost predicate AverageCost(b: Book, f: Fill, fee: real, after: Book) {
    var signed := Signed(f);
    && after.qty == b.qty + signed
    && Worth(after) == Worth(b) + CashFlow(f, fee)
    && if SameWay(b.qty, signed) then after.realized == b.realized
       else if Abs(signed) < Abs(b.qty) then after.avgCost == b.avgCost
       else if after.qty != 0.0 then after.avgCost == NetPrice(f.price, signed > 0.0, fee)
       else after.avgCost == 0.0
  }

  lemma WorthDetermines(x: Book, y: Book)
    requires x.qty == y.qty && Worth(x) == Worth(y)
    ensures x.avgCost == y.avgCost ==> x == y
    ensures x.qty != 0.0 && x.realized == y.realized ==> x == y
  {
    if x.qty != 0.0 && x.realized == y.realized {
      SameFactor(x.qty, x.avgCost, y.avgCost);
    }
  }

  lemma SameFactor(q: real, x: real, y: real)
    requires q != 0.0 && q * x == q * y
    ensures x == y
  {}

  /** These rules leave one book after every fill, and it is the one computed. */
  lemma AverageCostIff(b: Book, f: Fill, fee: real, after: Book)
    requires Signed(f) != 0.0
    ensures AverageCost(b, f, fee, after) <==> after == Apply(b, f, fee)
  {
    FillConservesCash(b, f, fee);
    hide Worth, CashFlow, NetPrice, Blend, Booked;
    assert AverageCost(b, f, fee, Apply(b, f, fee));
    if AverageCost(b, f, fee, after) {
      WorthDetermines(after, Apply(b, f, fee));
    }
  }

  /** What fills the same way paid, or short sales received, per unit times units. */
  function Cost(fills: seq<Fill>, fee: real): real {
    if |fills| == 0 then 0.0
    else var f := fills[|fills| - 1]; Cost(fills[..|fills| - 1], fee) + f.qty * NetPrice(f.price, f.buy, fee)
  }

  ghost predicate AllOn(fills: seq<Fill>, buy: bool) {
    forall i :: 0 <= i < |fills| ==> fills[i].buy == buy && fills[i].qty > 0.0
  }

  lemma {:induction false} SideCash(fills: seq<Fill>, buy: bool, fee: real)
    requires AllOn(fills, buy)
    ensures TotalCash(fills, fee) == if buy then -Cost(fills, fee) else Cost(fills, fee)
    ensures if buy then Position(fills) >= 0.0 else Position(fills) <= 0.0
    ensures |fills| > 0 ==> Position(fills) != 0.0
  {
    if |fills| > 0 {
      SideCash(fills[..|fills| - 1], buy, fee);
      hide NetPrice;
    }
  }

  lemma {:induction false} AddingBooksNothing(fills: seq<Fill>, buy: bool, fee: real)
    requires AllOn(fills, buy)
    ensures ApplyAll(EMPTY, fills, fee).realized == 0.0
  {
    if |fills| > 0 {
      var n := |fills| - 1;
      AddingBooksNothing(fills[..n], buy, fee);
      FeesDoNotMovePosition(fills[..n], fee);
      SideCash(fills[..n], buy, fee);
      hide Position, TotalCash, Cost, Blend, NetPrice;
    }
  }

  /** Nothing is booked, and average cost times size is what the open position cost. */
  ghost predicate Carries(b: Book, cost: real) {
    b.realized == 0.0 && b.avgCost * Abs(b.qty) == cost
  }

  /** A position built by adds alone has booked nothing and carries exactly what it cost. */
  lemma AddsCarryTheirCost(fills: seq<Fill>, buy: bool, fee: real)
    requires AllOn(fills, buy)
    ensures Carries(ApplyAll(EMPTY, fills, fee), Cost(fills, fee))
  {
    AddingBooksNothing(fills, buy, fee);
    FillsConserveCash(fills, fee);
    FeesDoNotMovePosition(fills, fee);
    SideCash(fills, buy, fee);
    hide *;
    CarriedCost(ApplyAll(EMPTY, fills, fee), TotalCash(fills, fee), Cost(fills, fee), buy);
  }

  lemma CarriedCost(b: Book, cash: real, cost: real, buy: bool)
    requires b.realized == 0.0 && Worth(b) == cash
    requires if buy then b.qty >= 0.0 && cash == -cost else b.qty <= 0.0 && cash == cost
    ensures Carries(b, cost)
  {}

  /** A round trip realizes what came in less what went out: the proceeds less the cost, either way round. */
  lemma RoundTripRealizes(adds: seq<Fill>, exits: seq<Fill>, buy: bool, fee: real)
    requires AllOn(adds, buy) && AllOn(exits, !buy) && Position(adds + exits) == 0.0
    ensures ApplyAll(EMPTY, adds + exits, fee).qty == 0.0
    ensures ApplyAll(EMPTY, adds + exits, fee).realized
         == if buy then Cost(exits, fee) - Cost(adds, fee) else Cost(adds, fee) - Cost(exits, fee)
  {
    FillsConserveCash(adds + exits, fee);
    FeesDoNotMovePosition(adds + exits, fee);
    CashAppend(adds, exits, fee);
    SideCash(adds, buy, fee);
    SideCash(exits, !buy, fee);
    hide ApplyAll, TotalCash, Position, Cost;
  }

  lemma {:induction false} CashAppend(xs: seq<Fill>, ys: seq<Fill>, fee: real)
    ensures TotalCash(xs + ys, fee) == TotalCash(xs, fee) + TotalCash(ys, fee)
  {
    if |ys| == 0 {
      assert xs + ys == xs;
    } else {
      assert (xs + ys)[..|xs + ys| - 1] == xs + ys[..|ys| - 1];
      CashAppend(xs, ys[..|ys| - 1], fee);
      hide CashFlow;
    }
  }

  // -------------------------------------------------------------------------- merging executions

  lemma AddTwice(b: Book, s: real, t: real, eff: real)
    requires (s > 0.0 && t > 0.0 && b.qty >= 0.0) || (s < 0.0 && t < 0.0 && b.qty <= 0.0)
    ensures Add(Add(b, s, eff), t, eff) == Add(b, s + t, eff)
  {
    var held := Abs(b.qty);
    var once := Add(b, s, eff);
    assert Abs(once.qty) == held + Abs(s) && Abs(s + t) == Abs(s) + Abs(t);
    assert Abs(once.qty + t) == held + Abs(s) + Abs(t);
    hide Blend;
    BlendTwice(b.avgCost, held, eff, Abs(s), Abs(t));
  }

  lemma BlendTwice(avg: real, held: real, eff: real, s: real, t: real)
    requires held >= 0.0 && s > 0.0 && t > 0.0
    ensures Blend(Blend(avg, held, eff, s, held + s), held + s, eff, t, held + s + t)
         == Blend(avg, held, eff, s + t, held + s + t)
  {
    DivMul(avg * held + eff * s, held + s);
    MulAdd(eff, s, t);
  }

  lemma ReduceTwice(b: Book, s: real, t: real, price: real)
    requires (b.qty > 0.0 && s < 0.0 && t < 0.0) || (b.qty < 0.0 && s > 0.0 && t > 0.0)
    requires Abs(s) < Abs(b.qty)
    ensures Reduce(Reduce(b, s, price, price), t, price, price) == Reduce(b, s + t, price, price)
  {
    var rest := Min(Abs(t), Abs(b.qty) - Abs(s));
    assert Min(Abs(s + t), Abs(b.qty)) == Abs(s) + rest;
    hide Booked;
    BookedTwice(Abs(s), rest, price, b.avgCost, if b.qty > 0.0 then 1.0 else -1.0);
  }

  lemma BookedTwice(s: real, t: real, price: real, avg: real, direction: real)
    ensures Booked(s, price, avg, direction) + Booked(t, price, avg, direction) == Booked(s + t, price, avg, direction)
  {
    var x := price - avg;
    assert (s + t) * x == s * x + t * x;
    MulAdd(direction, s * x, t * x);
  }

  /** Crossing zero: the first part closes or flips the position, so the second only adds. */
  lemma ReduceThenAdd(b: Book, s: real, t: real, price: real)
    requires (b.qty > 0.0 && s < 0.0 && t < 0.0) || (b.qty < 0.0 && s > 0.0 && t > 0.0)
    requires Abs(s) >= Abs(b.qty)
    ensures Add(Reduce(b, s, price, price), t, price) == Reduce(b, s + t, price, price)
  {
    var once := Reduce(b, s, price, price);
    var left := Abs(s) - Abs(b.qty);
    assert Abs(once.qty) == left && Abs(t) > 0.0 && Abs(once.qty + t) == left + Abs(t);
    hide Booked, Blend;
    BlendLevel(once.avgCost, left, price, Abs(t));
  }

  /** Adding at the price already carried leaves the average there. */
  lemma BlendLevel(avg: real, held: real, price: real, added: real)
    requires held >= 0.0 && added > 0.0 && avg == if held > 0.0 then price else 0.0
    ensures Blend(avg, held, price, added, held + added) == price
  {
    MulAdd(price, held, added);
    assert avg * held == price * held;
    Average(price, held + added);
  }

  lemma Average(price: real, n: real)
    requires n > 0.0
    ensures price * n / n == price
  {}

  /** One fill of q1 + q2 leaves the same book as q1 and then q2 on the same terms, from any book and
      across the flat crossing. */
  lemma SplitFill(b: Book, buy: bool, q1: real, q2: real, price: real, fee: real)
    requires q1 > 0.0 && q2 > 0.0
    ensures Apply(Apply(b, Fill(buy, q1, price), fee), Fill(buy, q2, price), fee)
         == Apply(b, Fill(buy, q1 + q2, price), fee)
  {
    var s, t := Signed(Fill(buy, q1, price)), Signed(Fill(buy, q2, price));
    var p := NetPrice(price, s > 0.0, fee);
    if SameWay(b.qty, s) {
      AddTwice(b, s, t, p);
    } else if Abs(s) < Abs(b.qty) {
      ReduceTwice(b, s, t, p);
    } else {
      ReduceThenAdd(b, s, t, p);
    }
  }

  lemma {:induction false} ApplyAllAppend(b: Book, xs: seq<Fill>, ys: seq<Fill>, fee: real)
    ensures ApplyAll(b, xs + ys, fee) == ApplyAll(ApplyAll(b, xs, fee), ys, fee)
  {
    if |ys| == 0 {
      assert xs + ys == xs;
    } else {
      assert (xs + ys)[..|xs + ys| - 1] == xs + ys[..|ys| - 1];
      ApplyAllAppend(b, xs, ys[..|ys| - 1], fee);
    }
  }

  /** Partial executions anywhere in a history can be merged without changing the book it ends in. */
  lemma MergeExecutions(before: seq<Fill>, buy: bool, q1: real, q2: real, price: real, after: seq<Fill>, fee: real)
    requires q1 > 0.0 && q2 > 0.0
    ensures ApplyAll(EMPTY, before + [Fill(buy, q1, price), Fill(buy, q2, price)] + after, fee)
         == ApplyAll(EMPTY, before + [Fill(buy, q1 + q2, price)] + after, fee)
  {
    var parts, whole := [Fill(buy, q1, price), Fill(buy, q2, price)], [Fill(buy, q1 + q2, price)];
    var b := ApplyAll(EMPTY, before, fee);
    ApplyAllAppend(EMPTY, before + parts, after, fee);
    ApplyAllAppend(EMPTY, before + whole, after, fee);
    ApplyAllAppend(EMPTY, before, parts, fee);
    ApplyAllAppend(EMPTY, before, whole, fee);
    assert ApplyAll(b, parts, fee) == ApplyAll(b, whole, fee) by {
      assert parts[..1] == [parts[0]] && parts[..1][..0] == [] && whole[..0] == [];
      assert ApplyAll(b, [parts[0]], fee) == Apply(b, parts[0], fee);
      SplitFill(b, buy, q1, q2, price, fee);
    }
  }

  // ------------------------------------------------------- sharing one real position (`attribute`)

  /** A total this close to zero cannot be attributed (1e-9). */
  const MIN_TAGGED: real := 0.000000001

  /** Each strategy's part of the real position, in proportion to its tagged quantity. */
  function Reconcile(tagged: seq<real>, actual: real): (parts: seq<real>)
    ensures |parts| == |tagged|
  {
    var s := Sum(tagged);
    var scale := if Abs(s) > MIN_TAGGED then actual / s else 0.0;
    Scale(scale, tagged)
  }

  /** The parts keep the tags' proportions, unless the tags net to nothing and all parts are zero. */
  lemma PartsKeepProportions(tagged: seq<real>, actual: real, i: nat)
    requires i < |tagged|
    ensures var s, part := Sum(tagged), Reconcile(tagged, actual)[i];
      if Abs(s) > MIN_TAGGED then part * s == tagged[i] * actual else part == 0.0
  {
    hide Sum;
    var s := Sum(tagged);
    if Abs(s) > MIN_TAGGED {
      assert Reconcile(tagged, actual)[i] == actual / s * tagged[i];
      Proportional(tagged[i], actual, s);
    }
  }

  /** The parts add up to the position really held, unless the tags net to nothing and all parts are zero. */
  lemma PartsSumToReality(tagged: seq<real>, actual: real)
    ensures Sum(Reconcile(tagged, actual)) == if Abs(Sum(tagged)) > MIN_TAGGED then actual else 0.0
    ensures actual == Sum(tagged) && Abs(Sum(tagged)) > MIN_TAGGED ==> Reconcile(tagged, actual) == tagged
  {
    var s := Sum(tagged);
    hide Sum;
    if Abs(s) > MIN_TAGGED {
      SumScale(actual / s, tagged);
      DivMul(actual, s);
      ScaleOne(actual, s, tagged);
    } else {
      SumScale(0.0, tagged);
    }
  }

  lemma Proportional(x: real, actual: real, s: real)
    requires s != 0.0
    ensures actual / s * x * s == x * actual
  {
    DivMul(actual, s);
    assert actual / s * x * s == actual / s * s * x;
  }

  lemma ScaleOne(x: real, d: real, s: seq<real>)
    requires d != 0.0
    ensures x == d ==> Scale(x / d, s) == s
  {
    if x == d {
      assert x / d == 1.0;
      forall i | 0 <= i < |s| ensures Scale(x / d, s)[i] == s[i] {}
    }
  }
}
