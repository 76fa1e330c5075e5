/**
 The walk-forward backtest (research/mds/engine.py, `run`): every `step` rows a strategy names its target
 weights from the history so far; they are capped, masked by membership, executed, and held to the next.
 */
module WalkForward {
  import opened Reals
  import opened Execution
  import opened Universe

  /** Target weights from a history, meant to read only the rows before the given one; None is NaN. */
  type Strategy = (History, nat) -> seq<Option<real>>

  datatype Setup = Setup(n: nat, start: nat, step: nat, maxLeverage: real, exec: Model, aum: real,
                         universe: bool, liquid: bool, delistingReturn: real,
                         strategy: Strategy, sqrt: real -> real)

  datatype Result = Result(net: seq<real>, weights: seq<seq<real>>)

  ghost predicate Sound(u: Setup) {
    && u.start > 0 && u.step > 0 && u.aum > 0.0 && u.maxLeverage >= 0.0 && Sane(u.exec)
    && forall px, t :: |u.strategy(px, t)| == u.n
  }

  /** The realistic model cannot trade without liquidity. */
  predicate Fundable(u: Setup, rows: nat) {
    u.exec.FlatBps? || u.liquid || rows <= u.start
  }

  /** The rows the backtest runs on. */
  function Panel(u: Setup, h: History): History {
    if u.universe then h else DropMissing(h)
  }

  function Zeros(n: nat): (r: seq<real>)
    ensures |r| == n
  {
    seq(n, _ => 0.0)
  }

  /** Scaled down to the gross-leverage cap. */
  function Capped(w: seq<real>, maxLeverage: real): (r: seq<real>)
    requires maxLeverage >= 0.0
    ensures |r| == |w|
  {
    var g := Gross(w);
    if g > maxLeverage then Scale(maxLeverage / g, w) else w
  }

  function Row(px: History, i: int, n: nat): (r: seq<bool>)
    requires 0 <= i < |px|
    ensures |r| == n
  {
    seq(n, s requires 0 <= s < n => Listed(px, s, i))
  }

  function Masked(w: seq<real>, row: seq<bool>): (r: seq<real>)
    requires |row| == |w|
    ensures |r| == |w|
  {
    seq(|w|, i requires 0 <= i < |w| => if row[i] then w[i] else 0.0)
  }

  function Raw(u: Setup, px: History, t: nat): (r: seq<real>)
    requires Sound(u)
    ensures |r| == u.n
  {
    var w := u.strategy(px, t);
    seq(u.n, i requires 0 <= i < u.n => OrZero(w[i]))
  }

  function Target(u: Setup, px: History, t: nat): (r: seq<real>)
    requires Sound(u) && 0 < t <= |px|
    ensures |r| == u.n
  {
    var w := Capped(Raw(u, px, t), u.maxLeverage);
    if u.universe then Masked(w, Row(px, t - 1, u.n)) else w
  }

  function Liquidity(u: Setup, px: History, t: nat): (r: Option<seq<Quote>>)
    requires 0 < t <= |px| && Shaped(px, u.n)
    ensures r.Some? ==> |r.value| == u.n
  {
    assert ShapedDay(px[t - 1], u.n);
    if u.liquid then Some(px[t - 1].liq) else None
  }

  /** The outcome of the rebalance on row t. */
  function FillAt(u: Setup, px: History, t: nat): (f: Fill)
    requires Sound(u) && Shaped(px, u.n) && (u.exec.FlatBps? || u.liquid) && u.start <= t <= |px|
    ensures |f.weights| == u.n
    decreases t
  {
    var prev := if t < u.start + u.step then Zeros(u.n) else FillAt(u, px, t - u.step).weights;
    Rebalance(u.exec, u.sqrt, prev, Target(u, px, t), u.aum, Liquidity(u, px, t)).value
  }

  /** The weights held before the rebalance on row t, and after it. */
  function Before(u: Setup, px: History, t: nat): (w: seq<real>)
    requires Sound(u) && Shaped(px, u.n) && (u.exec.FlatBps? || u.liquid) && u.start <= t <= |px|
    ensures |w| == u.n
  {
    if t < u.start + u.step then Zeros(u.n) else FillAt(u, px, t - u.step).weights
  }

  function Held(u: Setup, px: History, t: nat): (w: seq<real>)
    requires Sound(u) && Shaped(px, u.n) && (u.exec.FlatBps? || u.liquid) && u.start <= t <= |px|
    ensures |w| == u.n
  {
    FillAt(u, px, t).weights
  }

  /** The rebalance row whose weights are held over row s. */
  function Block(u: Setup, s: nat): (t: nat)
    requires u.step > 0 && u.start <= s
    ensures u.start <= t <= s < t + u.step
  {
    if s < u.start + u.step then u.start else Block(u, s - u.step) + u.step
  }

  lemma {:induction false} BlockIs(u: Setup, t: nat, s: nat)
    requires u.step > 0 && u.start <= t <= s < t + u.step && Block(u, t) == t
    ensures Block(u, s) == t
  {
    if t >= u.start + u.step {
      BlockIs(u, t - u.step, s - u.step);
    }
  }

  /** One symbol's return over row s: no return where a price is missing. */
  function Return(px: History, s: nat, i: nat): real {
    if s > 0 && Priced(px, s, i) && Priced(px, s - 1, i) && px[s - 1].prices[i].value != 0.0
    then px[s].prices[i].value / px[s - 1].prices[i].value - 1.0 else 0.0
  }

  function Gain(px: History, s: nat, i: nat, w: real): real {
    Return(px, s, i) * w
  }

  function Gains(px: History, s: nat, w: seq<real>): seq<real> {
    seq(|w|, i requires 0 <= i < |w| => Gain(px, s, i, w[i]))
  }

  /** Held before the rebalance on row t, and no longer listed: it delisted. */
  predicate Delisted(w: real, listed: bool) {
    w != 0.0 && !listed
  }

  function Exits(prev: seq<real>, row: seq<bool>): seq<real>
    requires |prev| == |row|
  {
    seq(|prev|, i requires 0 <= i < |prev| => if Delisted(prev[i], row[i]) then prev[i] else 0.0)
  }

  function DelistingPnl(u: Setup, px: History, t: nat): real
    requires Sound(u) && Shaped(px, u.n) && (u.exec.FlatBps? || u.liquid) && u.start <= t <= |px|
  {
    if u.universe then Sum(Exits(Before(u, px, t), Row(px, t - 1, u.n))) * u.delistingReturn else 0.0
  }

  /** The net return over row s. */
  function Net(u: Setup, px: History, s: nat): real
    requires Sound(u) && Shaped(px, u.n) && (u.exec.FlatBps? || u.liquid) && u.start <= s < |px|
  {
    var t := Block(u, s);
    var w := Held(u, px, t);
    var daily := Sum(Gains(px, s, w)) - Carry(u.exec, w);
    if s == t then daily - FillAt(u, px, t).cost + DelistingPnl(u, px, t) else daily
  }

  method Walk(u: Setup, h: History) returns (r: Option<Result>)
    requires Sound(u) && Shaped(Panel(u, h), u.n)
    ensures r.Some? <==> u.exec.FlatBps? || u.liquid || |Panel(u, h)| <= u.start
    ensures var px := Panel(u, h);
      r.Some? ==>
        && |r.value.net| == |r.value.weights| == (if u.start <= |px| then |px| - u.start else 0)
        && forall s :: u.start <= s < |px| ==>
             && r.value.net[s - u.start] == Net(u, px, s)
             && r.value.weights[s - u.start] == Held(u, px, Block(u, s))
  {
    hide FillAt, Rebalance, Target, DropMissing, Net, Block, Shaped, Liquidity, DelistingPnl, IsMask;
    var px := Panel(u, h);
    if !Fundable(u, |px|) {
      return None;
    }
    var mask := new bool[0, 0];
    if u.universe {
      mask := MembershipMask(px, u.n);
      MaskMade(mask, px, u.n);
    }
    var net := new real[|px|](_ => 0.0);
    var weights := new seq<real>[|px|](_ => []);
    var prev := Zeros(u.n);
    var t := u.start;
    FirstBlock(u);
    while t < |px|
      invariant u.start <= t && Block(u, t) == t
      invariant u.universe ==> IsMask(mask, px, u.n)
      invariant t <= |px| ==> prev == if t < u.start + u.step then Zeros(u.n) else Held(u, px, t - u.step)
      invariant forall s :: u.start <= s < t && s < |px| ==>
                  net[s] == Net(u, px, s) && weights[s] == Held(u, px, Block(u, s))
    {
      var target, exits := Aim(u, px, t, mask, prev);
      StepIs(u, px, t);
      var f := Rebalance(u.exec, u.sqrt, prev, target, u.aum, Liquidity(u, px, t)).value;
      HoldBlock(u, px, t, f, exits, net, weights);
      prev := f.weights;
      NextBlock(u, t);
      t := t + u.step;
    }
    r := Some(if u.start <= |px| then Result(net[u.start..], weights[u.start..]) else Result([], []));
  }

  /** The capped, masked target of a rebalance and the result of what delisted before it. */
  method Aim(u: Setup, px: History, t: nat, mask: array2<bool>, prev: seq<real>) returns (target: seq<real>, exits: real)
    requires Sound(u) && Shaped(px, u.n) && (u.exec.FlatBps? || u.liquid) && u.start <= t < |px|
    requires u.universe ==> IsMask(mask, px, u.n)
    requires prev == Before(u, px, t)
    ensures target == Target(u, px, t) && exits == DelistingPnl(u, px, t)
  {
    hide FillAt, Sum, Listed, Row, Masked, Exits, Shaped, Raw, Capped, IsMask;
    target := Capped(Raw(u, px, t), u.maxLeverage);
    exits := 0.0;
    if u.universe {
      var row := RowOf(mask, px, t - 1, u.n);
      target := Masked(target, row);
      exits := Sum(Exits(prev, row)) * u.delistingReturn;
    }
  }

  /** Writes the rows from one rebalance to the next. */
  method HoldBlock(u: Setup, px: History, t: nat, f: Fill, exits: real, net: array<real>, weights: array<seq<real>>)
    requires Sound(u) && Shaped(px, u.n) && (u.exec.FlatBps? || u.liquid)
    requires u.start <= t < |px| == net.Length == weights.Length && Block(u, t) == t
    requires f == FillAt(u, px, t) && exits == DelistingPnl(u, px, t)
    modifies net, weights
    ensures forall s :: t <= s < |px| && s < t + u.step ==> net[s] == Net(u, px, s) && weights[s] == Held(u, px, Block(u, s))
    ensures forall s :: 0 <= s < t ==> net[s] == old(net[s]) && weights[s] == old(weights[s])
  {
    hide FillAt, Carry, Gains, Sum, Net, Block, Shaped, Sound, DelistingPnl;
    var end := if t + u.step <= |px| then t + u.step else |px|;
    for s := t to end
      invariant forall j :: t <= j < s ==> net[j] == Net(u, px, j) && weights[j] == Held(u, px, Block(u, j))
      invariant forall j :: 0 <= j < t ==> net[j] == old(net[j]) && weights[j] == old(weights[j])
    {
      BlockIs(u, t, s);
      NetIs(u, px, s);
      net[s] := Sum(Gains(px, s, f.weights)) - Carry(u.exec, f.weights);
      if s == t {
        net[s] := net[s] - f.cost + exits;
      }
      weights[s] := f.weights;
    }
  }

  predicate IsMask(mask: array2<bool>, px: History, n: nat)
    reads mask
  {
    && mask.Length0 == |px| && mask.Length1 == n
    && forall j, s :: 0 <= j < |px| && 0 <= s < n ==> mask[j, s] == Listed(px, s, j)
  }

  method RowOf(mask: array2<bool>, px: History, i: nat, n: nat) returns (row: seq<bool>)
    requires i < |px| && IsMask(mask, px, n)
    ensures row == Row(px, i, n)
  {
    hide Listed;
    row := seq(n, s requires 0 <= s < n && i < mask.Length0 && mask.Length1 == n reads mask => mask[i, s]);
  }

  lemma FirstBlock(u: Setup)
    requires u.step > 0
    ensures Block(u, u.start) == u.start
  {}

  lemma NextBlock(u: Setup, t: nat)
    requires u.step > 0 && u.start <= t && Block(u, t) == t
    ensures Block(u, t + u.step) == t + u.step
  {}

  lemma MaskMade(mask: array2<bool>, px: History, n: nat)
    requires mask.Length0 == |px| && mask.Length1 == n
    requires forall i, s :: 0 <= i < |px| && 0 <= s < n ==> mask[i, s] == Listed(px, s, i)
    ensures IsMask(mask, px, n)
  {
    hide Listed;
  }

  lemma StepIs(u: Setup, px: History, t: nat)
    requires Sound(u) && Shaped(px, u.n) && (u.exec.FlatBps? || u.liquid) && u.start <= t <= |px|
    ensures Rebalance(u.exec, u.sqrt, Before(u, px, t), Target(u, px, t), u.aum, Liquidity(u, px, t)) == Some(FillAt(u, px, t))
  {
    hide Target, Achieve, TradeCosts;
  }

  lemma NetIs(u: Setup, px: History, s: nat)
    requires Sound(u) && Shaped(px, u.n) && (u.exec.FlatBps? || u.liquid) && u.start <= s < |px|
    ensures var t := Block(u, s);
      var daily := Sum(Gains(px, s, Held(u, px, t))) - Carry(u.exec, Held(u, px, t));
      Net(u, px, s) == if s == t then daily - FillAt(u, px, t).cost + DelistingPnl(u, px, t) else daily
  {}
}
