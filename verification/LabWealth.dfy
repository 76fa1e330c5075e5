/**
 What the lab's backtest earns (research/service/lab.py:132-150): compounding its cost-free returns is trading shares
 at the closes, and what it charges is its rate on every change of position.
 */
module LabWealth {
  import opened Reals
  import opened Signals
  import opened LiveBacktest

  /** An account that is all in cash or all in shares. */
  datatype Account = Account(cash: real, shares: real)

  function Value(a: Account, price: real): real {
    a.cash + a.shares * price
  }

  /** Buys with all its cash, or sells all its shares, at this price when the position asked for differs. */
  function Switch(a: Account, long: bool, was: bool, price: real): Account
    requires price > 0.0
  {
    if long && !was then Account(0.0, a.cash / price)
    else if !long && was then Account(a.shares * price, 0.0)
    else a
  }

  predicate Positive(closes: seq<real>) {
    forall i :: 0 <= i < |closes| ==> closes[i] > 0.0
  }

  /** One dollar at `start`, switched at every close before `end` to the position of the signal at that close. */
  function Trade(s: Strategy, closes: seq<real>, start: nat, end: nat): Account
    requires end <= |closes| && Positive(closes)
  {
    if end <= start then Account(1.0, 0.0)
    else Switch(Trade(s, closes, start, end - 1), Held(s, closes, end - 1) == 1, Was(s, closes, start, end - 1), closes[end - 1])
  }

  /** Compounds the backtest's net returns. */
  function Wealth(s: Strategy, closes: seq<real>, start: nat, end: nat, costBps: real): real
    requires end < |closes| && Positive(closes)
  {
    if end <= start then 1.0
    else Wealth(s, closes, start, end - 1, costBps) * (1.0 + NetReturn(s, closes, end - 1, start, costBps))
  }

  /** All in shares when long, all in cash when flat. */
  predicate AllIn(a: Account, long: bool) {
    if long then a.cash == 0.0 else a.shares == 0.0
  }

  lemma {:induction false} TradeIsAllIn(s: Strategy, closes: seq<real>, start: nat, end: nat)
    requires end <= |closes| && Positive(closes)
    ensures AllIn(Trade(s, closes, start, end), Was(s, closes, start, end))
  {
    hide TargetSign;
    if end > start {
      TradeIsAllIn(s, closes, start, end - 1);
    }
  }

  /** Switching costs nothing, and the next bar moves the value as the position held does. */
  lemma SwitchEarns(a: Account, long: bool, was: bool, price: real, next: real)
    requires price > 0.0 && AllIn(a, was)
    ensures Value(Switch(a, long, was, price), price) == Value(a, price)
    ensures Value(Switch(a, long, was, price), next)
         == Value(a, price) * (1.0 + (if long then 1.0 else 0.0) * (next / price - 1.0))
  {
    DivMul(next, price);
    DivMul(a.cash, price);
    if long {
      var shares := if was then a.shares else a.cash / price;
      assert shares * price == Value(a, price);
      SharesGrow(shares, price, next);
    }
  }

  lemma SharesGrow(shares: real, price: real, next: real)
    requires price > 0.0
    ensures shares * next == shares * price * (1.0 + 1.0 * (next / price - 1.0))
  {
    DivMul(next, price);
    assert shares * price * (next / price) == shares * (next / price * price);
  }

  lemma FreeReturn(s: Strategy, closes: seq<real>, start: nat, t: nat)
    requires t + 1 < |closes| && Positive(closes)
    ensures NetReturn(s, closes, t, start, 0.0) == (if Held(s, closes, t) == 1 then 1.0 else 0.0) * (closes[t + 1] / closes[t] - 1.0)
  {
    hide TargetSign;
    HeldIsBinary(s, closes, t);
  }

  /** Without costs the compounded returns of any run are what an account that follows its signal is worth. */
  lemma {:induction false} ReturnsAreTheAccount(s: Strategy, closes: seq<real>, start: nat, end: nat)
    requires start <= end < |closes| && Positive(closes)
    ensures Wealth(s, closes, start, end, 0.0) == Value(Trade(s, closes, start, end), closes[end])
  {
    hide Held, NetReturn, Switch, Value;
    if end > start {
      var t := end - 1;
      ReturnsAreTheAccount(s, closes, start, t);
      TradeIsAllIn(s, closes, start, t);
      FreeReturn(s, closes, start, t);
      SwitchEarns(Trade(s, closes, start, t), Held(s, closes, t) == 1, Was(s, closes, start, t), closes[t], closes[end]);
    } else {
      StartsWithADollar(closes[end]);
    }
  }

  lemma StartsWithADollar(price: real)
    ensures Value(Account(1.0, 0.0), price) == 1.0
  {}

  function TotalNet(s: Strategy, closes: seq<real>, start: nat, end: nat, costBps: real): real
    requires end < |closes| && Positive(closes)
  {
    if end <= start then 0.0 else TotalNet(s, closes, start, end - 1, costBps) + NetReturn(s, closes, end - 1, start, costBps)
  }

  /** Costs take their rate, in basis points, off the summed returns at every change of position, and nothing else. */
  lemma {:induction false} CostsAreTheTurnover(s: Strategy, closes: seq<real>, start: nat, end: nat, costBps: real)
    requires end < |closes| && Positive(closes)
    ensures TotalNet(s, closes, start, end, costBps)
         == TotalNet(s, closes, start, end, 0.0) - TotalTurn(s, closes, start, end) as real * (costBps / 10000.0)
  {
    hide NetReturn, Turn;
    if end > start {
      CostsAreTheTurnover(s, closes, start, end - 1, costBps);
      CostOfTurn(s, closes, start, end - 1, costBps);
      hide *;
      Charge(TotalTurn(s, closes, start, end - 1), Turn(s, closes, end - 1, start), costBps / 10000.0);
      NextBar(s, closes, start, end, costBps);
      NextBar(s, closes, start, end, 0.0);
    }
  }

  lemma NextBar(s: Strategy, closes: seq<real>, start: nat, end: nat, costBps: real)
    requires start < end < |closes| && Positive(closes)
    ensures TotalNet(s, closes, start, end, costBps)
         == TotalNet(s, closes, start, end - 1, costBps) + NetReturn(s, closes, end - 1, start, costBps)
    ensures TotalTurn(s, closes, start, end) == TotalTurn(s, closes, start, end - 1) + Turn(s, closes, end - 1, start)
  {
    hide NetReturn, Turn;
  }

  lemma CostOfTurn(s: Strategy, closes: seq<real>, start: nat, t: nat, costBps: real)
    requires t + 1 < |closes| && Positive(closes)
    ensures NetReturn(s, closes, t, start, costBps)
         == NetReturn(s, closes, t, start, 0.0) - Turn(s, closes, t, start) as real * (costBps / 10000.0)
  {
    hide Held, Turn;
  }

  lemma Charge(before: nat, turn: nat, rate: real)
    ensures (before + turn) as real * rate == before as real * rate + turn as real * rate
  {
    MulSum(rate, (before + turn) as real, before as real, turn as real);
  }
}
