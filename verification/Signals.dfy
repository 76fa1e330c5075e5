/**
 Trading signals (research/service/strategies.py, `_sma` and `target_sign`) on a full price history and on the
 last BAR_LIMIT bars the live engine fetches (research/service/engine.py:30-31).
 */
module Signals {
  import opened Reals

  /** How many bars the live engine asks for. */
  const BAR_LIMIT: nat := 120

  /** With fewer bars than this the live engine leaves the symbol alone. */
  const MIN_BARS: nat := 5

  datatype Strategy = MaCrossover(fast: int, slow: int) | Momentum(lookback: nat)

  function Tail(xs: seq<real>, n: nat): seq<real> {
    if |xs| <= n then xs else xs[|xs| - n..]
  }

  /** The mean of the last n prices, or None if there are fewer or n is not positive. */
  function Sma(xs: seq<real>, n: int): Option<real> {
    if |xs| < n || n <= 0 then None else Some(Sum(xs[|xs| - n..]) / n as real)
  }

  /** 1 for long, 0 for flat. */
  function TargetSign(s: Strategy, closes: seq<real>): nat {
    match s
    case MaCrossover(fast, slow) =>
      var f, g := Sma(closes, fast), Sma(closes, slow);
      if f.None? || g.None? then 0 else if f.value > g.value then 1 else 0
    case Momentum(lb) =>
      if |closes| <= lb || closes[|closes| - lb - 1] == 0.0 then 0
      else if closes[|closes| - 1] / closes[|closes| - lb - 1] - 1.0 > 0.0 then 1 else 0
  }

  /** On positive prices momentum is long exactly when the last price is above the one `lookback` bars before it. */
  lemma MomentumIsLongIff(lookback: nat, closes: seq<real>)
    requires forall i :: 0 <= i < |closes| ==> closes[i] > 0.0
    ensures TargetSign(Momentum(lookback), closes) == 1
        <==> |closes| > lookback && closes[|closes| - 1] > closes[|closes| - 1 - lookback]
  {
    if |closes| > lookback {
      RatioAboveOne(closes[|closes| - 1], closes[|closes| - 1 - lookback]);
    }
  }

  lemma RatioAboveOne(x: real, y: real)
    requires y > 0.0
    ensures x / y - 1.0 > 0.0 <==> x > y
  {
    DivMul(x, y);
    var q := x / y;
    if q > 1.0 {
      PositiveFactor(q - 1.0, y);
      assert (q - 1.0) * y == x - y;
    } else {
      MulMono(y, q, 1.0);
    }
  }

  /** A crossover is long exactly when the mean of its fast window is above that of its slow one, cross-multiplied. */
  lemma CrossoverIsLongIff(fast: int, slow: int, closes: seq<real>)
    ensures TargetSign(MaCrossover(fast, slow), closes) == 1
        <==> 0 < fast <= |closes| && 0 < slow <= |closes|
             && Sum(closes[|closes| - fast..]) * slow as real > Sum(closes[|closes| - slow..]) * fast as real
  {
    hide Sum;
    if 0 < fast <= |closes| && 0 < slow <= |closes| {
      QuotientsCompare(Sum(closes[|closes| - fast..]), fast as real, Sum(closes[|closes| - slow..]), slow as real);
    }
  }

  lemma QuotientsCompare(x: real, a: real, y: real, b: real)
    requires a > 0.0 && b > 0.0
    ensures x / a > y / b <==> x * b > y * a
  {
    DivMul(x, a);
    DivMul(y, b);
    Scaled(x / a, y / b, a, b);
  }

  lemma Scaled(p: real, q: real, a: real, b: real)
    requires a > 0.0 && b > 0.0
    ensures p > q <==> p * a * b > q * b * a
  {
    PositiveProduct(a, b);
    assert p * a * b == p * (a * b) && q * b * a == q * (a * b);
    Ordered(p, q, a * b);
  }

  lemma PositiveProduct(a: real, b: real)
    requires a > 0.0 && b > 0.0
    ensures a * b > 0.0
  {}

  lemma Ordered(p: real, q: real, k: real)
    requires k > 0.0
    ensures p > q <==> p * k > q * k
  {}

  /** The number of bars a strategy needs before it can be long. */
  function Window(s: Strategy): int {
    match s
    case MaCrossover(fast, slow) => if fast >= slow then fast else slow
    case Momentum(lb) => lb + 1
  }

  /** A crossover of equal or non-positive windows is never long, and neither is a momentum over no bars. */
  predicate NeverLong(s: Strategy) {
    match s
    case MaCrossover(fast, slow) => fast == slow || fast <= 0 || slow <= 0
    case Momentum(lb) => lb == 0
  }

  lemma NeverLongIsFlat(s: Strategy, closes: seq<real>)
    requires NeverLong(s)
    ensures TargetSign(s, closes) == 0
  {
    hide Sum;
    if s.Momentum? && |closes| > 0 && closes[|closes| - 1] != 0.0 {
      assert closes[|closes| - 1] / closes[|closes| - 1] == 1.0;
    }
  }

  /** With fewer bars than its window a strategy is flat. */
  lemma ShortHistoryIsFlat(s: Strategy, closes: seq<real>)
    requires |closes| < Window(s)
    ensures TargetSign(s, closes) == 0
  {}

  lemma SmaOfSuffix(before: seq<real>, last: seq<real>)
    requires |last| > 0
    ensures Sma(before + last, |last|) == Some(Sum(last) / |last| as real)
  {
    hide Sum;
    assert (before + last)[|before|..] == last;
  }

  lemma TailKeepsSma(closes: seq<real>, n: nat, w: int)
    requires w <= n
    ensures Sma(Tail(closes, n), w) == Sma(closes, w)
  {
    hide Sum;
    if |closes| > n && w > 0 {
      var early, late := closes[..|closes| - w], closes[|closes| - w..];
      assert closes == early + late;
      assert Tail(closes, n) == closes[|closes| - n..|closes| - w] + late;
      SmaOfSuffix(early, late);
      SmaOfSuffix(closes[|closes| - n..|closes| - w], late);
    }
  }

  lemma TailKeepsSign(s: Strategy, closes: seq<real>, n: nat)
    requires Window(s) <= n
    ensures TargetSign(s, Tail(closes, n)) == TargetSign(s, closes)
  {
    hide Sma;
    match s
    case MaCrossover(fast, slow) =>
      TailKeepsSma(closes, n, fast);
      TailKeepsSma(closes, n, slow);
    case Momentum(lb) =>
  }

  /** A history of positive prices on which a strategy with a long enough window is long. */
  function LongHistory(s: Strategy): seq<real>
    requires Window(s) > 1 && !NeverLong(s)
  {
    match s
    case MaCrossover(fast, slow) =>
      if fast < slow then Rising(slow) else [2.0] + seq(fast - 1, _ => 1.0)
    case Momentum(lb) => seq(lb, _ => 1.0) + [2.0]
  }

  lemma {:induction false} SumOnes(n: nat)
    ensures Sum(seq(n, _ => 1.0)) == n as real
  {
    if n > 0 {
      assert seq(n, _ => 1.0)[..n - 1] == seq(n - 1, _ => 1.0);
      SumOnes(n - 1);
    }
  }

  lemma OnesAndTwo(n: nat)
    ensures Sum(seq(n, _ => 1.0) + [2.0]) == n as real + 2.0 == Sum([2.0] + seq(n, _ => 1.0))
  {
    SumOnes(n);
    SumSnoc(seq(n, _ => 1.0), 2.0);
    SumAppend([2.0], seq(n, _ => 1.0));
    SumSnoc([], 2.0);
    assert [] + [2.0] == [2.0];
  }

  /** (n + 1) / n falls as n grows. */
  lemma MeanFalls(a: nat, b: nat)
    requires 0 < a < b
    ensures (a as real + 1.0) / a as real > (b as real + 1.0) / b as real
  {
    var x, y := a as real, b as real;
    assert (x + 1.0) / x == 1.0 + 1.0 / x && (y + 1.0) / y == 1.0 + 1.0 / y;
    InverseFalls(x, y, 1.0 / x, 1.0 / y);
  }

  lemma InverseFalls(x: real, y: real, p: real, q: real)
    requires 0.0 < x < y && p * x == 1.0 && q * y == 1.0
    ensures p > q
  {
    PositiveFactor(x, p);
    PositiveFactor(y, q);
    assert p * y == p * x + p * (y - x);
    MulAdd(y, p, q);
    PositiveFactor(y, p - q);
  }

  lemma PositiveFactor(x: real, p: real)
    requires x > 0.0 && p * x > 0.0
    ensures p > 0.0
  {}

  lemma LongHistoryIsLong(s: Strategy)
    requires Window(s) > 1 && !NeverLong(s)
    ensures |LongHistory(s)| == Window(s) && TargetSign(s, LongHistory(s)) == 1
    ensures forall i :: 0 <= i < |LongHistory(s)| ==> LongHistory(s)[i] > 0.0
  {
    match s
    case MaCrossover(fast, slow) =>
      if fast < slow {
        RisingCrosses(fast, slow);
      } else {
        FallingCrosses(fast, slow);
      }
    case Momentum(lb) =>
  }

  function Rising(n: nat): seq<real>
    requires n > 0
  {
    seq(n - 1, _ => 1.0) + [2.0]
  }

  lemma RisingSma(n: nat, slow: nat)
    requires 0 < n <= slow
    ensures Sma(Rising(slow), n) == Some((n as real + 1.0) / n as real)
  {
    hide Sma, Sum;
    var early := seq(slow - n, _ => 1.0);
    assert Rising(slow) == early + Rising(n);
    SmaOfSuffix(early, Rising(n));
    OnesAndTwo(n - 1);
  }

  lemma RisingCrosses(fast: nat, slow: nat)
    requires 0 < fast < slow
    ensures TargetSign(MaCrossover(fast, slow), Rising(slow)) == 1
  {
    hide Sma, Rising;
    RisingSma(fast, slow);
    RisingSma(slow, slow);
    MeanFalls(fast, slow);
  }

  lemma FallingCrosses(fast: nat, slow: nat)
    requires 0 < slow < fast
    ensures TargetSign(MaCrossover(fast, slow), [2.0] + seq(fast - 1, _ => 1.0)) == 1
  {
    hide Sma, Sum;
    var h := [2.0] + seq(fast - 1, _ => 1.0);
    var early, late := [2.0] + seq(fast - 1 - slow, _ => 1.0), seq(slow, _ => 1.0);
    assert h == early + late == [] + h;
    SmaOfSuffix(early, late);
    SmaOfSuffix([], h);
    OnesAndTwo(fast - 1);
    SumOnes(slow);
    MeanAboveOne(fast, slow);
  }

  lemma MeanAboveOne(a: nat, b: nat)
    requires a > 0 && b > 0
    ensures (a as real + 1.0) / a as real > 1.0 == b as real / b as real
  {
    var x := a as real;
    assert (x + 1.0) / x == 1.0 + 1.0 / x;
  }

  /** The sign a flat live sleeve acts on: that of the bars fetched, and none while they are too few. */
  function LiveSign(s: Strategy, closes: seq<real>): nat {
    var bars := Tail(closes, BAR_LIMIT);
    if |bars| < MIN_BARS then 0 else TargetSign(s, bars)
  }

  /** The live signal and the backtest signal are the same on every history. */
  ghost predicate LiveMatchesBacktest(s: Strategy) {
    forall closes :: LiveSign(s, closes) == TargetSign(s, closes)
  }

  lemma LiveSignMatches(s: Strategy, closes: seq<real>)
    requires NeverLong(s) || (Window(s) <= BAR_LIMIT && (Window(s) >= MIN_BARS || |closes| >= MIN_BARS))
    ensures LiveSign(s, closes) == TargetSign(s, closes)
  {
    hide TargetSign, NeverLong, Window;
    if NeverLong(s) {
      NeverLongIsFlat(s, closes);
      NeverLongIsFlat(s, Tail(closes, BAR_LIMIT));
    } else {
      TailKeepsSign(s, closes, BAR_LIMIT);
      if |closes| < MIN_BARS {
        ShortHistoryIsFlat(s, closes);
      }
    }
  }

  /**
   The live engine computes the backtested signal on every history exactly when the strategy's window fits in
   the bars it fetches and is no shorter than the fewest it acts on (or the strategy can never be long).
   */
  lemma LiveMatchesIffWindowFits(s: Strategy)
    ensures LiveMatchesBacktest(s) <==> NeverLong(s) || MIN_BARS <= Window(s) <= BAR_LIMIT
  {
    hide TargetSign, LiveSign, NeverLong, Window;
    if NeverLong(s) || MIN_BARS <= Window(s) <= BAR_LIMIT {
      forall closes ensures LiveSign(s, closes) == TargetSign(s, closes) {
        LiveSignMatches(s, closes);
      }
    } else {
      CanBeLong(s);
      LongHistoryIsLong(s);
      UnfitIsFlat(s, LongHistory(s));
    }
  }

  lemma CanBeLong(s: Strategy)
    requires !NeverLong(s)
    ensures Window(s) > 1
  {}

  /** With too few bars, or more than it fetches, the live engine sees no signal. */
  lemma UnfitIsFlat(s: Strategy, closes: seq<real>)
    requires |closes| < MIN_BARS || Window(s) > BAR_LIMIT
    ensures LiveSign(s, closes) == 0
  {
    if Window(s) > BAR_LIMIT {
      ShortHistoryIsFlat(s, Tail(closes, BAR_LIMIT));
    }
  }

  /**
   The backtest grid offers crossovers the live engine cannot trade, those with slow = 192, and nothing else it
   cannot trade.
   */
  lemma GridEntryNeverTradesLive(fast: nat, slow: nat, lookback: nat, closes: seq<real>)
    requires fast in {6, 12, 24, 48} && slow in {24, 48, 96, 192} && fast < slow && lookback in {6, 12, 24, 48, 96}
    ensures LiveMatchesBacktest(MaCrossover(fast, slow)) <==> slow != 192
    ensures slow == 192 ==> LiveSign(MaCrossover(fast, slow), closes) == 0
    ensures LiveMatchesBacktest(Momentum(lookback))
  {
    hide TargetSign, LiveMatchesBacktest, LiveSign;
    LiveMatchesIffWindowFits(MaCrossover(fast, slow));
    LiveMatchesIffWindowFits(Momentum(lookback));
    if slow == 192 {
      UnfitIsFlat(MaCrossover(fast, slow), closes);
    }
  }

  /** However many bars come before it, a long history stays long. */
  lemma PaddedIsLong(s: Strategy, n: nat)
    requires !NeverLong(s) && Window(s) > 1
    ensures TargetSign(s, seq(n, _ => 1.0) + LongHistory(s)) == 1
  {
    hide TargetSign, NeverLong, LongHistory, Window;
    LongHistoryIsLong(s);
    var closes := seq(n, _ => 1.0) + LongHistory(s);
    assert Tail(closes, Window(s)) == LongHistory(s);
    TailKeepsSign(s, closes, Window(s));
  }
}
