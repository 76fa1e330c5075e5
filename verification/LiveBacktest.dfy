/**
 The live engine against the backtest (research/service/engine.py:220-260, research/service/lab.py:132-150): one sleeve on
 its own symbol, armed flat at any bar, one cycle per bar, orders filled between cycles, no cap in the way.
 */
module LiveBacktest {
  import opened Reals
  import opened Signals
  import opened LiveControls
  import opened LiveEngine

  // -------------------------------------------------------------------------------- the backtest

  /** The position the backtest holds over the bar that ends at t + 1. */
  function Held(s: Strategy, closes: seq<real>, t: int): nat
    requires t < |closes|
  {
    if t < 0 then 0 else TargetSign(s, closes[..t + 1])
  }

  /** Whether the backtest begun at `start` comes into bar t long. */
  predicate Was(s: Strategy, closes: seq<real>, start: nat, t: nat)
    requires t <= |closes|
  {
    t > start && Held(s, closes, t - 1) == 1
  }

  function Turn(s: Strategy, closes: seq<real>, t: nat, start: nat): nat
    requires t < |closes|
  {
    var before := if t <= start then 0 else Held(s, closes, t - 1);
    if Held(s, closes, t) == before then 0 else 1
  }

  function TotalTurn(s: Strategy, closes: seq<real>, start: nat, end: nat): nat
    requires end <= |closes|
  {
    if end <= start then 0 else TotalTurn(s, closes, start, end - 1) + Turn(s, closes, end - 1, start)
  }

  function NetReturn(s: Strategy, closes: seq<real>, t: nat, start: nat, costBps: real): real
    requires t + 1 < |closes| && closes[t] != 0.0
  {
    Held(s, closes, t) as real * (closes[t + 1] / closes[t] - 1.0) - Turn(s, closes, t, start) as real * (costBps / 10000.0)
  }

  lemma NetReturnIs(s: Strategy, closes: seq<real>, t: nat, start: nat, costBps: real)
    requires t + 1 < |closes| && closes[t] != 0.0
    ensures NetReturn(s, closes, t, start, costBps)
         == Held(s, closes, t) as real * (closes[t + 1] / closes[t] - 1.0)
            - Turn(s, closes, t, start) as real * (costBps / 10000.0)
  {}

  /** Per-bar net returns and total turnover over [start, end). */
  method RunSeries(s: Strategy, closes: seq<real>, costBps: real, start: nat, end: nat)
    returns (net: seq<real>, turnSum: nat)
    requires start <= end < |closes| && forall i :: 0 <= i < |closes| ==> closes[i] > 0.0
    ensures |net| == end - start && turnSum == TotalTurn(s, closes, start, end)
    ensures forall i :: 0 <= i < |net| ==> net[i] == NetReturn(s, closes, start + i, start, costBps)
  {
    hide TargetSign, NetReturn;
    net, turnSum := [], 0;
    var before := 0;
    for t := start to end
      invariant |net| == t - start && turnSum == TotalTurn(s, closes, start, t)
      invariant before == if t <= start then 0 else Held(s, closes, t - 1)
      invariant forall i :: 0 <= i < |net| ==> net[i] == NetReturn(s, closes, start + i, start, costBps)
    {
      var sign := TargetSign(s, closes[..t + 1]);
      var gross := sign as real * (closes[t + 1] / closes[t] - 1.0);
      var turn := if sign == before then 0 else 1;
      assert sign == Held(s, closes, t) && turn == Turn(s, closes, t, start);
      var bar := gross - turn as real * (costBps / 10000.0);
      NetReturnIs(s, closes, t, start, costBps);
      net := net + [bar];
      turnSum := turnSum + turn;
      before := sign;
    }
  }

  // ------------------------------------------------------------------------------- the live sleeve

  /** What the market offers the sleeve at each bar: the price, the order size at that price, the exposure and
      volatility checks, and the position an entry placed then ends up with. */
  datatype Market = Market(price: nat -> real, qty: nat -> real, gross: nat -> real, volOk: nat -> bool,
                           filled: nat -> real)

  /** What the engine reads at bar t holding `pos`: nothing if there are too few bars. */
  function BarQuote(s: Strategy, closes: seq<real>, m: Market, t: nat, pos: real): Option<Quote>
    requires t < |closes|
  {
    var bars := Tail(closes[..t + 1], BAR_LIMIT);
    if |bars| < MIN_BARS then None
    else Some(Quote(TargetSign(s, bars), pos, m.price(t), m.qty(t), m.volOk(t), pos))
  }

  /** The engine's decision at bar t holding `pos`. */
  function LiveOrder(s: Strategy, closes: seq<real>, m: Market, t: nat, pos: real): Option<Kind>
    requires t < |closes|
  {
    var q := BarQuote(s, closes, m, t, pos);
    if q.None? then None else Intent(q.value, m.gross(t))
  }

  /** The position before the cycle of bar t of a sleeve that is armed, flat, at bar `start`. */
  function LivePosition(s: Strategy, closes: seq<real>, m: Market, start: nat, t: nat): real
    requires t <= |closes|
  {
    if t <= start then 0.0
    else
      var before := LivePosition(s, closes, m, start, t - 1);
      match LiveOrder(s, closes, m, t - 1, before)
      case Some(Entry) => m.filled(t - 1)
      case Some(Exit) => 0.0
      case _ => before
  }

  /** An entry is large enough to send and passes the exposure and volatility checks. */
  predicate EntryAllowed(m: Market, t: nat) {
    var size := m.qty(t) * m.price(t);
    size >= MIN_ORDER_USD && m.gross(t) + size <= MAX_GROSS_USD && m.volOk(t)
  }

  /** A position is open and stays worth an order from bar t on. */
  ghost predicate StaysOpen(m: Market, pos: real, t: nat, bars: nat) {
    pos > 0.0 && forall u: nat :: t <= u < bars ==> Worth(m, pos, u)
  }

  predicate Worth(m: Market, pos: real, t: nat) {
    pos * m.price(t) >= MIN_ORDER_USD
  }

  /** Nothing stands in the way of an entry, and an open position stays worth an order. */
  ghost predicate Calm(m: Market, bars: nat) {
    && (forall t: nat :: t < bars ==> EntryAllowed(m, t))
    && (forall t: nat :: t < bars ==> StaysOpen(m, m.filled(t), t + 1, bars))
  }

  /** The live position is open exactly when the backtest was long, and then worth an order. */
  ghost predicate InStep(m: Market, pos: real, wasLong: bool, t: nat, bars: nat) {
    if wasLong then StaysOpen(m, pos, t, bars) else pos == 0.0
  }

  /** The order that turns the previous position into the backtest's next one. */
  function Change(now: nat, wasLong: bool): Option<Kind> {
    if now == 1 && !wasLong then Some(Entry) else if now == 0 && wasLong then Some(Exit) else None
  }

  lemma IntentIsTheChange(m: Market, t: nat, bars: nat, sign: nat, pos: real, wasLong: bool)
    requires t < bars && sign <= 1 && EntryAllowed(m, t) && InStep(m, pos, wasLong, t, bars)
    ensures Intent(Quote(sign, pos, m.price(t), m.qty(t), m.volOk(t), pos), m.gross(t)) == Change(sign, wasLong)
  {
    if wasLong {
      assert Worth(m, pos, t);
    }
  }

  /**
   The strategy's window fits the bars fetched, and the sleeve starts late enough, or the window is long enough,
   that the five-bar minimum hides nothing. A strategy that is never long always fits.
   */
  predicate Fits(s: Strategy, start: nat) {
    NeverLong(s) || (Window(s) <= BAR_LIMIT && (Window(s) >= MIN_BARS || start + 1 >= MIN_BARS))
  }

  lemma HeldIsBinary(s: Strategy, closes: seq<real>, t: int)
    requires t < |closes|
    ensures Held(s, closes, t) <= 1
  {}

  lemma HeldIsLive(s: Strategy, closes: seq<real>, start: nat, t: nat)
    requires start <= t < |closes| && Fits(s, start)
    ensures Held(s, closes, t) == LiveSign(s, closes[..t + 1])
  {
    hide TargetSign, LiveSign, NeverLong, Window;
    LiveSignMatches(s, closes[..t + 1]);
  }

  /** The quote carries the live sign; without one the live sign is flat. */
  lemma QuoteSign(s: Strategy, closes: seq<real>, m: Market, t: nat, pos: real)
    requires t < |closes|
    ensures var q := BarQuote(s, closes, m, t, pos); var sign := LiveSign(s, closes[..t + 1]);
      && (q.None? <==> t + 1 < MIN_BARS)
      && (q.None? ==> sign == 0)
      && (q.Some? ==> q.value == Quote(sign, pos, m.price(t), m.qty(t), m.volOk(t), pos))
  {
    hide TargetSign;
  }

  /** One cycle: the order placed is the backtest's change of position. */
  lemma CycleMatches(s: Strategy, closes: seq<real>, m: Market, start: nat, t: nat, pos: real)
    requires start <= t < |closes| && Fits(s, start) && Calm(m, |closes|)
    requires InStep(m, pos, Was(s, closes, start, t), t, |closes|)
    ensures LiveOrder(s, closes, m, t, pos) == Change(Held(s, closes, t), Was(s, closes, start, t))
  {
    hide TargetSign, Held, Intent, Tail, Window, BarQuote, Fits, LiveSign, InStep;
    HeldIsBinary(s, closes, t);
    HeldIsLive(s, closes, start, t);
    QuoteSign(s, closes, m, t, pos);
    if t + 1 < MIN_BARS && t > start {
      HeldIsLive(s, closes, start, t - 1);
      QuoteSign(s, closes, m, t - 1, pos);
    }
    IntentIsTheChange(m, t, |closes|, Held(s, closes, t), pos, Was(s, closes, start, t));
  }

  lemma {:induction false} StaysInStep(s: Strategy, closes: seq<real>, m: Market, start: nat, t: nat)
    requires start <= t < |closes| && Fits(s, start) && Calm(m, |closes|)
    ensures InStep(m, LivePosition(s, closes, m, start, t), Was(s, closes, start, t), t, |closes|)
  {
    hide TargetSign, LiveOrder, Fits, Held;
    if t > start {
      StaysInStep(s, closes, m, start, t - 1);
      var before := LivePosition(s, closes, m, start, t - 1);
      CycleMatches(s, closes, m, start, t - 1, before);
      HeldIsBinary(s, closes, t - 1);
    }
  }

  /**
   What you test is what trades: a strategy that fits, armed flat at any bar, at every bar from then on holds
   the position of the backtest begun there, and sends the order, and no other, that changes it into the
   backtest's next one.
   */
  lemma LiveTradesTheBacktest(s: Strategy, closes: seq<real>, m: Market, start: nat, t: nat)
    requires start <= t < |closes| && Fits(s, start) && Calm(m, |closes|)
    ensures var pos := LivePosition(s, closes, m, start, t);
      && (if Was(s, closes, start, t) then pos > 0.0 else pos == 0.0)
      && LiveOrder(s, closes, m, t, pos) == Change(Held(s, closes, t), Was(s, closes, start, t))
  {
    hide TargetSign, LiveOrder, Fits, Held, LivePosition, Calm;
    StaysInStep(s, closes, m, start, t);
    CycleMatches(s, closes, m, start, t, LivePosition(s, closes, m, start, t));
  }

  /** Bars from `start` on which the live sleeve sends an order. */
  function OrdersSent(s: Strategy, closes: seq<real>, m: Market, start: nat, end: nat): nat
    requires end <= |closes|
  {
    if end <= start then 0
    else
      var order := LiveOrder(s, closes, m, end - 1, LivePosition(s, closes, m, start, end - 1));
      OrdersSent(s, closes, m, start, end - 1) + (if order.Some? then 1 else 0)
  }

  /** So it sends as many orders as the backtest has turnover. */
  lemma {:induction false} OrdersAreTheTurnover(s: Strategy, closes: seq<real>, m: Market, start: nat, end: nat)
    requires end <= |closes| && Fits(s, start) && Calm(m, |closes|)
    ensures OrdersSent(s, closes, m, start, end) == TotalTurn(s, closes, start, end)
  {
    hide TargetSign, LiveOrder, Fits, LivePosition, Calm, Held;
    if end > start {
      OrdersAreTheTurnover(s, closes, m, start, end - 1);
      LiveTradesTheBacktest(s, closes, m, start, end - 1);
      HeldIsBinary(s, closes, end - 1);
      HeldIsBinary(s, closes, end - 2);
    }
  }

  // ---------------------------------------------------------------- exactly which strategies match

  /** On this history and market every order is the backtest's change. */
  ghost predicate Follows(s: Strategy, closes: seq<real>, m: Market, start: nat) {
    forall t :: start <= t < |closes| ==>
      LiveOrder(s, closes, m, t, LivePosition(s, closes, m, start, t)) == Change(Held(s, closes, t), Was(s, closes, start, t))
  }

  /** On every history and every calm market. */
  ghost predicate TradesTheBacktest(s: Strategy, start: nat) {
    forall closes, m :: Calm(m, |closes|) ==> Follows(s, closes, m, start)
  }

  const STEADY := Market(_ => 1.0, _ => MIN_ORDER_USD, _ => 0.0, _ => true, _ => MIN_ORDER_USD)

  lemma SteadyIsCalm(bars: nat)
    ensures Calm(STEADY, bars)
  {
    forall t: nat | t < bars ensures EntryAllowed(STEADY, t) && StaysOpen(STEADY, STEADY.filled(t), t + 1, bars) {
      forall u: nat | t + 1 <= u < bars ensures Worth(STEADY, STEADY.filled(t), u) {}
    }
  }

  lemma FlatNeverEnters(s: Strategy, closes: seq<real>, m: Market, t: nat, pos: real)
    requires t < |closes| && LiveSign(s, closes[..t + 1]) == 0
    ensures LiveOrder(s, closes, m, t, pos) != Some(Entry)
  {
    hide TargetSign, LiveSign, BarQuote;
    QuoteSign(s, closes, m, t, pos);
  }

  /** If the backtest is ever long where the live engine never sees a signal, some entry is missed. */
  lemma {:induction false} MissesAnEntry(s: Strategy, closes: seq<real>, m: Market, start: nat, t: nat)
    requires start <= t < |closes| && Held(s, closes, t) == 1
    requires forall n :: start < n <= t + 1 ==> LiveSign(s, closes[..n]) == 0
    ensures !Follows(s, closes, m, start)
  {
    hide TargetSign, LiveSign, LiveOrder, Held, LivePosition;
    if Was(s, closes, start, t) {
      MissesAnEntry(s, closes, m, start, t - 1);
    } else {
      FlatNeverEnters(s, closes, m, t, LivePosition(s, closes, m, start, t));
      assert Change(Held(s, closes, t), false) == Some(Entry);
    }
  }

  /** The live sleeve trades the backtest on every history exactly when the strategy fits. */
  lemma TradesTheBacktestIffFits(s: Strategy, start: nat)
    ensures TradesTheBacktest(s, start) <==> Fits(s, start)
  {
    hide TargetSign, LiveSign, LiveOrder, LivePosition, Calm, Change;
    if Fits(s, start) {
      hide Fits;
      forall closes, m | Calm(m, |closes|) ensures Follows(s, closes, m, start) {
        forall t | start <= t < |closes|
          ensures LiveOrder(s, closes, m, t, LivePosition(s, closes, m, start, t)) == Change(Held(s, closes, t), Was(s, closes, start, t))
        {
          LiveTradesTheBacktest(s, closes, m, start, t);
        }
      }
    } else {
      CanBeLong(s);
      var pad: nat := if Window(s) > BAR_LIMIT then start else if Window(s) < 4 then 4 - Window(s) else 0;
      Unfit(s, start, pad);
    }
  }

  lemma Unfit(s: Strategy, start: nat, pad: nat)
    requires !NeverLong(s) && Window(s) > 1
    requires Window(s) > BAR_LIMIT || pad + Window(s) < MIN_BARS
    requires start < pad + Window(s)
    ensures !TradesTheBacktest(s, start)
  {
    hide TargetSign, LiveSign, LiveOrder, LivePosition, Calm, NeverLong, LongHistory, Follows;
    LongHistoryIsLong(s);
    PaddedIsLong(s, pad);
    var closes := seq(pad, _ => 1.0) + LongHistory(s);
    var t := |closes| - 1;
    assert closes[..t + 1] == closes;
    forall n | start < n <= t + 1 ensures LiveSign(s, closes[..n]) == 0 {
      UnfitIsFlat(s, closes[..n]);
    }
    MissesAnEntry(s, closes, STEADY, start, t);
    SteadyIsCalm(|closes|);
  }

  /** The five-bar minimum at work: a one-bar momentum is long on its second bar and the live engine is not. */
  lemma ShortWindowSkipsEarlyBars(m: Market)
    ensures var s, closes := Momentum(1), [1.0, 2.0];
      && Held(s, closes, 0) == 0 && Held(s, closes, 1) == 1 && TotalTurn(s, closes, 0, 2) == 1
      && OrdersSent(s, closes, m, 0, 2) == 0
      && !Fits(s, 0) && Fits(s, 4)
  {
    var s, closes := Momentum(1), [1.0, 2.0];
    assert closes[..1] == [1.0] && closes[..2] == closes;
    assert 2.0 / 1.0 == 2.0;
    assert TargetSign(s, closes) == 1;
    assert LiveOrder(s, closes, m, 0, 0.0) == None == LiveOrder(s, closes, m, 1, 0.0);
    hide LiveOrder, TargetSign;
    assert OrdersSent(s, closes, m, 0, 1) == 0;
    assert TotalTurn(s, closes, 0, 1) == 0;
  }
}
