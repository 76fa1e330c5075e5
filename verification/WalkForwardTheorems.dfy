/**
 What a walk-forward run guarantees: it never looks ahead, no held weight leaves the leverage box, and when a
 delisting is charged.
 */
module WalkForwardTheorems {
  import opened Reals
  import opened Execution
  import opened Universe
  import opened WalkForward

  /** Both histories have the first t rows, and the same ones. */
  ghost predicate Agree(p: History, q: History, t: nat) {
    t <= |p| && t <= |q| && p[..t] == q[..t]
  }

  /** The strategy reads only the rows before the one it trades on. */
  ghost predicate Causal(strategy: Strategy) {
    forall p, q, t :: Agree(p, q, t) ==> strategy(p, t) == strategy(q, t)
  }

  ghost predicate NoHoles(px: History, n: nat) {
    forall s :: 0 <= s < n ==> GapFree(px, s)
  }

  /** A run that can trade on this panel. */
  ghost predicate Trades(u: Setup, px: History) {
    Sound(u) && Shaped(px, u.n) && (u.exec.FlatBps? || u.liquid) && (u.universe ==> NoHoles(px, u.n))
  }

  // ---------------------------------------------------------------------------------- look-ahead

  lemma RowsAgree(p: History, q: History, t: nat, n: nat)
    requires 0 < t && Agree(p, q, t) && NoHoles(p, n) && NoHoles(q, n)
    ensures Row(p, t - 1, n) == Row(q, t - 1, n)
  {
    hide Listed, Priced;
    var a, b := Row(p, t - 1, n), Row(q, t - 1, n);
    forall s | 0 <= s < n ensures a[s] == b[s] {
      MaskIsTheRowIffGapFree(p, s);
      MaskIsTheRowIffGapFree(q, s);
      PricedAgrees(p, q, t, t - 1, s);
    }
  }

  lemma PricedAgrees(p: History, q: History, t: nat, i: nat, s: nat)
    requires Agree(p, q, t) && i < t
    ensures Priced(p, i, s) == Priced(q, i, s)
  {
    assert p[i] == p[..t][i] == q[..t][i] == q[i];
  }

  lemma TargetsAgree(u: Setup, p: History, q: History, t: nat)
    requires Trades(u, p) && Trades(u, q) && Causal(u.strategy) && 0 < t && Agree(p, q, t)
    ensures Target(u, p, t) == Target(u, q, t) && Liquidity(u, p, t) == Liquidity(u, q, t)
  {
    hide Capped, Masked, Row, NoHoles, Shaped;
    if u.universe {
      RowsAgree(p, q, t, u.n);
    }
    assert p[t - 1] == p[..t][t - 1] == q[..t][t - 1] == q[t - 1];
  }

  /** The trade on row t depends only on the rows before t. */
  lemma {:induction false} FillsAgree(u: Setup, p: History, q: History, t: nat)
    requires Trades(u, p) && Trades(u, q) && Causal(u.strategy) && u.start <= t && Agree(p, q, t)
    ensures FillAt(u, p, t) == FillAt(u, q, t)
    decreases t
  {
    hide Rebalance, Target, Liquidity, Shaped, NoHoles;
    if t >= u.start + u.step {
      assert Agree(p, q, t - u.step) by {
        assert p[..t - u.step] == p[..t][..t - u.step];
        assert q[..t - u.step] == q[..t][..t - u.step];
      }
      FillsAgree(u, p, q, t - u.step);
    }
    TargetsAgree(u, p, q, t);
  }

  /** The net return over row s depends only on the rows up to s. */
  lemma NetsAgree(u: Setup, p: History, q: History, s: nat)
    requires Trades(u, p) && Trades(u, q) && Causal(u.strategy) && u.start <= s && Agree(p, q, s + 1)
    ensures Net(u, p, s) == Net(u, q, s)
  {
    hide FillAt, Sum, Carry, Return, Row, Exits, NoHoles, Shaped;
    var t := Block(u, s);
    Shorter(p, q, s + 1, t);
    FillsAgree(u, p, q, t);
    if u.universe {
      RowsAgree(p, q, t, u.n);
    }
    if t >= u.start + u.step {
      Shorter(p, q, s + 1, t - u.step);
      FillsAgree(u, p, q, t - u.step);
    }
    GainsAgree(p, q, s, Held(u, p, t));
    BlockIsARebalance(u, s);
    assert DelistingPnl(u, p, t) == DelistingPnl(u, q, t);
  }

  lemma {:induction false} BlockIsARebalance(u: Setup, s: nat)
    requires u.step > 0 && u.start <= s
    ensures Block(u, Block(u, s)) == Block(u, s)
  {
    if s >= u.start + u.step {
      BlockIsARebalance(u, s - u.step);
    }
  }

  lemma Shorter(p: History, q: History, t: nat, s: nat)
    requires Agree(p, q, t) && s <= t
    ensures Agree(p, q, s)
  {
    assert p[..s] == p[..t][..s] && q[..s] == q[..t][..s];
  }

  lemma ReturnsAgree(p: History, q: History, s: nat, i: nat)
    requires Agree(p, q, s + 1)
    ensures Return(p, s, i) == Return(q, s, i)
  {
    assert p[s] == p[..s + 1][s] == q[..s + 1][s] == q[s];
    if s > 0 {
      assert p[s - 1] == p[..s + 1][s - 1] == q[..s + 1][s - 1] == q[s - 1];
    }
  }

  lemma GainsAgree(p: History, q: History, s: nat, w: seq<real>)
    requires Agree(p, q, s + 1)
    ensures Gains(p, s, w) == Gains(q, s, w)
  {
    hide Return, Agree;
    forall i | 0 <= i < |w| ensures Gains(p, s, w)[i] == Gains(q, s, w)[i] {
      ReturnsAgree(p, q, s, i);
    }
  }

  /**
   No look-ahead. If two price histories agree on their first `known` rows, a causal strategy run over them
   holds the same weights and earns the same net returns on every row that lies within those rows. With a
   universe, both histories must be free of interior holes.
   */
  lemma NoLookAhead(u: Setup, g: History, h: History, known: nat)
    requires Trades(u, Panel(u, g)) && Trades(u, Panel(u, h)) && Causal(u.strategy) && Agree(g, h, known)
    ensures var seen := |Panel(u, g[..known])|; var p, q := Panel(u, g), Panel(u, h);
      && Agree(p, q, seen)
      && (forall t :: u.start <= t <= seen ==> Held(u, p, t) == Held(u, q, t))
      && (forall s :: u.start <= s < seen ==> Net(u, p, s) == Net(u, q, s))
  {
    hide Held, Net, FillAt, NoHoles, Shaped;
    var seen := |Panel(u, g[..known])|;
    var p, q := Panel(u, g), Panel(u, h);
    DropMissingIsPrefix(g, known);
    DropMissingIsPrefix(h, known);
    assert Agree(p, q, seen);
    forall t | u.start <= t <= seen ensures Held(u, p, t) == Held(u, q, t) {
      Shorter(p, q, seen, t);
      HeldsAgree(u, p, q, t);
    }
    forall s | u.start <= s < seen ensures Net(u, p, s) == Net(u, q, s) {
      Shorter(p, q, seen, s + 1);
      NetsAgree(u, p, q, s);
    }
  }

  lemma HeldsAgree(u: Setup, p: History, q: History, t: nat)
    requires Trades(u, p) && Trades(u, q) && Causal(u.strategy) && u.start <= t && Agree(p, q, t)
    ensures Held(u, p, t) == Held(u, q, t)
  {
    FillsAgree(u, p, q, t);
  }

  /** A one-symbol, cost-free run that always wants to be fully invested. */
  function AlwaysIn(): Setup {
    Setup(1, 2, 1, 1.0, FlatBps(0.0), 1.0, true, false, -0.3, (_, _) => [Some(1.0)], _ => 0.0)
  }

  function Day1(price: Option<real>): Day {
    Day([price], [Quote(None, None, None)])
  }

  /**
   With a hole the run does look ahead: after a row without a price, the weight chosen depends on whether the
   price will come back.
   */
  lemma HolesLeakTheFuture()
    ensures var u := AlwaysIn();
      var p := [Day1(Some(1.0)), Day1(None), Day1(Some(1.0))]; var q := [Day1(Some(1.0)), Day1(None), Day1(None)];
      && Sound(u) && Causal(u.strategy) && Shaped(p, 1) && Shaped(q, 1) && Agree(p, q, 2)
      && Held(u, p, 2) == [1.0] && Held(u, q, 2) == [0.0]
  {
    var u := AlwaysIn();
    var p := [Day1(Some(1.0)), Day1(None), Day1(Some(1.0))];
    var q := [Day1(Some(1.0)), Day1(None), Day1(None)];
    assert Priced(p, 0, 0) && Priced(p, 2, 0);
    assert Row(p, 1, 1) == [true];
    assert Row(q, 1, 1) == [false];
    FullyInvested(p);
    FullyInvested(q);
  }

  lemma FullyInvested(px: History)
    requires |px| >= 2 && Shaped(px, 1)
    ensures Held(AlwaysIn(), px, 2) == Masked([1.0], Row(px, 1, 1))
  {
    hide Row, Masked;
    var u := AlwaysIn();
    assert Raw(u, px, 2) == [1.0];
    SingleGross();
    assert Capped([1.0], 1.0) == [1.0];
  }

  lemma SingleGross()
    ensures Gross([1.0]) == 1.0
  {
    assert AbsAll([1.0]) == [] + [1.0];
    SumSnoc([], 1.0);
  }

  // ------------------------------------------------------------------------------------ leverage

  lemma CappedGross(w: seq<real>, maxLeverage: real)
    requires maxLeverage >= 0.0
    ensures Gross(Capped(w, maxLeverage)) <= maxLeverage
  {
    hide Gross;
    var g := Gross(w);
    if g > maxLeverage {
      var k := maxLeverage / g;
      NotNegativeOver(maxLeverage, g);
      GrossScale(k, w);
      DivMul(maxLeverage, g);
    }
  }

  /** The target's gross exposure is within the cap, and so is each of its weights. */
  lemma TargetWithinLeverage(u: Setup, px: History, t: nat)
    requires Sound(u) && 0 < t <= |px|
    ensures Gross(Target(u, px, t)) <= u.maxLeverage
    ensures forall i :: 0 <= i < u.n ==> Abs(Target(u, px, t)[i]) <= u.maxLeverage
  {
    hide Capped, Sum, Raw, Listed;
    var w := Capped(Raw(u, px, t), u.maxLeverage);
    var target := Target(u, px, t);
    CappedGross(Raw(u, px, t), u.maxLeverage);
    SumMono(AbsAll(target), AbsAll(w));
    forall i | 0 <= i < u.n ensures Abs(target[i]) <= u.maxLeverage {
      PartOfSum(AbsAll(target), i);
    }
  }

  lemma BetweenBounded(x: real, a: real, b: real, bound: real)
    requires Between(x, a, b) && Abs(a) <= bound && Abs(b) <= bound
    ensures Abs(x) <= bound
  {}

  lemma FillBetween(u: Setup, px: History, t: nat, i: nat)
    requires Sound(u) && Shaped(px, u.n) && (u.exec.FlatBps? || u.liquid) && u.start <= t <= |px| && i < u.n
    ensures Between(Held(u, px, t)[i], Before(u, px, t)[i], Target(u, px, t)[i])
  {
    hide Target, Rebalance, Between, Sane;
    StepIs(u, px, t);
    BookNeverOvershoots(u.exec, u.sqrt, Before(u, px, t), Target(u, px, t), u.aum, Liquidity(u, px, t), i);
  }

  /** Through a whole run, whatever is filled and however partially, every held weight stays within the cap. */
  lemma {:induction false} HeldWithinLeverage(u: Setup, px: History, t: nat, i: nat)
    requires Sound(u) && Shaped(px, u.n) && (u.exec.FlatBps? || u.liquid) && u.start <= t <= |px| && i < u.n
    ensures Abs(Held(u, px, t)[i]) <= u.maxLeverage
    decreases t
  {
    hide Target, FillAt, Shaped;
    TargetWithinLeverage(u, px, t);
    FillBetween(u, px, t, i);
    if t >= u.start + u.step {
      HeldWithinLeverage(u, px, t - u.step, i);
    }
    BetweenBounded(Held(u, px, t)[i], Before(u, px, t)[i], Target(u, px, t)[i], u.maxLeverage);
  }

  /** With full fills the gross exposure itself stays within the cap. */
  lemma FlatGrossWithinLeverage(u: Setup, px: History, t: nat)
    requires Sound(u) && Shaped(px, u.n) && u.exec.FlatBps? && u.start <= t <= |px|
    ensures Gross(Held(u, px, t)) <= u.maxLeverage
  {
    hide Target, Gross, Turnover;
    TargetWithinLeverage(u, px, t);
    StepIs(u, px, t);
  }

  // ----------------------------------------------------------------- gross exposure and partial fills

  /** The dollars of symbol i that can trade on row t; None is no limit. */
  function CapAt(u: Setup, px: History, t: nat, i: nat): Option<real>
    requires Shaped(px, u.n) && 0 < t <= |px| && i < u.n
  {
    assert ShapedDay(px[t - 1], u.n);
    Cap(u.exec, px[t - 1].liq[i])
  }

  lemma HeldIsAchieved(u: Setup, px: History, t: nat, i: nat)
    requires Sound(u) && Shaped(px, u.n) && (u.exec.FlatBps? || u.liquid) && u.start <= t <= |px| && i < u.n
    ensures Usable(CapAt(u, px, t, i))
    ensures Held(u, px, t)[i] == Achieve(Before(u, px, t)[i], Target(u, px, t)[i], u.aum, CapAt(u, px, t, i))
  {
    hide Target, TradeCosts, Achieve, FillAt, Turnover;
    StepIs(u, px, t);
    assert ShapedDay(px[t - 1], u.n);
    CapUsable(u.exec, px[t - 1].liq[i]);
    if u.exec.FlatBps? {
      Uncapped(Before(u, px, t)[i], Target(u, px, t)[i], u.aum);
    }
  }

  lemma Uncapped(prev: real, target: real, aum: real)
    requires aum > 0.0
    ensures Achieve(prev, target, aum, None) == target
  {
    TimesOver(target - prev, aum);
  }

  /** The part of a trade, as a weight, that the cap does not let through. */
  function Shortfall(prev: real, target: real, aum: real, cap: Option<real>): real
    requires aum > 0.0
  {
    if cap.None? then 0.0 else Max(Abs(target - prev) - cap.value / aum, 0.0)
  }

  lemma ShortOfTarget(prev: real, target: real, aum: real, cap: Option<real>)
    requires aum > 0.0 && Usable(cap)
    ensures Abs(target - Achieve(prev, target, aum, cap)) == Shortfall(prev, target, aum, cap)
  {
    hide Achieve, Abs;
    if cap.None? {
      Uncapped(prev, target, aum);
      NoDifference(target);
    } else {
      ResidualShrinksByCap(prev, target, aum, cap.value);
      PerDollar(Abs(target - Achieve(prev, target, aum, cap)), Abs(target - prev), cap.value, aum);
    }
  }

  lemma NoDifference(x: real)
    ensures Abs(x - x) == 0.0
  {}

  lemma PerDollar(left: real, all: real, cap: real, aum: real)
    requires aum > 0.0 && left * aum == Max(all * aum - cap, 0.0)
    ensures left == Max(all - cap / aum, 0.0)
  {
    DivMul(cap, aum);
    assert (all - cap / aum) * aum == all * aum - cap;
    Sided(all - cap / aum, aum);
    Cancel(left, if all - cap / aum >= 0.0 then all - cap / aum else 0.0, aum);
  }

  lemma Sided(x: real, aum: real)
    requires aum > 0.0
    ensures x * aum >= 0.0 <==> x >= 0.0
  {}

  lemma Cancel(x: real, y: real, aum: real)
    requires aum > 0.0 && x * aum == y * aum
    ensures x == y
  {}

  /** The trade only reduces the position: the target lies between zero and the weight held before. */
  predicate Reduces(prev: real, target: real) {
    Between(target, 0.0, prev)
  }

  /** What stopping a trade short by `cut` adds to gross exposure; negative where a purchase is cut. */
  function Added(prev: real, target: real, cut: real): real {
    if target >= prev then Abs(target - cut) - Abs(target) else Abs(target + cut) - Abs(target)
  }

  /** It is at most what is cut, and all of it on a reduction. */
  lemma AddedBounds(prev: real, target: real, cut: real)
    requires cut >= 0.0
    ensures Added(prev, target, cut) <= cut
    ensures cut == 0.0 ==> Added(prev, target, cut) == 0.0
    ensures Reduces(prev, target) && cut <= Abs(target - prev) ==> Added(prev, target, cut) == cut
  {}

  lemma FillAdds(prev: real, target: real, aum: real, cap: Option<real>)
    requires aum > 0.0 && Usable(cap)
    ensures var cut := Shortfall(prev, target, aum, cap);
      && 0.0 <= cut <= Abs(target - prev)
      && Abs(Achieve(prev, target, aum, cap)) == Abs(target) + Added(prev, target, cut)
  {
    ShortOfTarget(prev, target, aum, cap);
    NeverOvershoots(prev, target, aum, cap);
    hide Achieve, Shortfall;
  }

  function Shortfalls(u: Setup, px: History, t: nat): (r: seq<real>)
    requires Sound(u) && Shaped(px, u.n) && (u.exec.FlatBps? || u.liquid) && u.start <= t <= |px|
    ensures |r| == u.n
  {
    seq(u.n, i requires 0 <= i < u.n => Shortfall(Before(u, px, t)[i], Target(u, px, t)[i], u.aum, CapAt(u, px, t, i)))
  }

  /** Every trade that a cap cuts short on this row reduces a position. */
  ghost predicate OnlyReductionsCut(u: Setup, px: History, t: nat)
    requires Sound(u) && Shaped(px, u.n) && (u.exec.FlatBps? || u.liquid) && u.start <= t <= |px|
  {
    forall i :: 0 <= i < u.n && Shortfalls(u, px, t)[i] > 0.0 ==> Reduces(Before(u, px, t)[i], Target(u, px, t)[i])
  }

  /** What the caps add to gross exposure on row t, symbol by symbol. */
  function AddedAll(u: Setup, px: History, t: nat): (r: seq<real>)
    requires Sound(u) && Shaped(px, u.n) && (u.exec.FlatBps? || u.liquid) && u.start <= t <= |px|
    ensures |r| == u.n
  {
    seq(u.n, i requires 0 <= i < u.n => Added(Before(u, px, t)[i], Target(u, px, t)[i], Shortfalls(u, px, t)[i]))
  }

  lemma AddedAt(u: Setup, px: History, t: nat, i: nat)
    requires Sound(u) && Shaped(px, u.n) && (u.exec.FlatBps? || u.liquid) && u.start <= t <= |px| && i < u.n
    ensures var cut, added := Shortfalls(u, px, t)[i], AddedAll(u, px, t)[i];
      && Abs(Held(u, px, t)[i]) == Abs(Target(u, px, t)[i]) + added
      && cut >= 0.0 && added <= cut
      && (Reduces(Before(u, px, t)[i], Target(u, px, t)[i]) || cut == 0.0 ==> added == cut)
  {
    hide Target, Held, Before, Achieve, Reduces, Added, Shortfall;
    HeldIsAchieved(u, px, t, i);
    FillAdds(Before(u, px, t)[i], Target(u, px, t)[i], u.aum, CapAt(u, px, t, i));
    AddedBounds(Before(u, px, t)[i], Target(u, px, t)[i], Shortfalls(u, px, t)[i]);
  }

  /** The gross exposure held is the target's and what the caps add: at most what they cut, and exactly that when
      only reductions are cut. */
  lemma GrossWithCaps(u: Setup, px: History, t: nat)
    requires Sound(u) && Shaped(px, u.n) && (u.exec.FlatBps? || u.liquid) && u.start <= t <= |px|
    ensures Gross(Held(u, px, t)) == Gross(Target(u, px, t)) + Sum(AddedAll(u, px, t))
    ensures Sum(AddedAll(u, px, t)) <= Sum(Shortfalls(u, px, t))
    ensures OnlyReductionsCut(u, px, t) ==> AddedAll(u, px, t) == Shortfalls(u, px, t)
  {
    hide Target, Held, Before, Shortfalls, AddedAll, Sum, Reduces;
    var held, target, added := AbsAll(Held(u, px, t)), AbsAll(Target(u, px, t)), AddedAll(u, px, t);
    forall i | 0 <= i < u.n
      ensures held[i] == Plus(target, added)[i] && added[i] <= Shortfalls(u, px, t)[i]
      ensures OnlyReductionsCut(u, px, t) ==> added[i] == Shortfalls(u, px, t)[i]
    {
      AddedAt(u, px, t, i);
    }
    assert held == Plus(target, added);
    SumPlus(target, added);
    SumMono(added, Shortfalls(u, px, t));
  }

  lemma {:induction false} SumIsZeroIff(s: seq<real>)
    requires forall i :: 0 <= i < |s| ==> s[i] >= 0.0
    ensures Sum(s) == 0.0 <==> forall i :: 0 <= i < |s| ==> s[i] == 0.0
  {
    SumNotNegative(s);
    if |s| > 0 {
      SumNotNegative(s[..|s| - 1]);
      SumIsZeroIff(s[..|s| - 1]);
    }
  }

  /**
   The gross exposure held is within the leverage cap exactly when the target leaves room for what the
   participation caps add, on every row, whatever they cut.
   */
  lemma GrossWithinLeverageIff(u: Setup, px: History, t: nat)
    requires Sound(u) && Shaped(px, u.n) && (u.exec.FlatBps? || u.liquid) && u.start <= t <= |px|
    ensures Gross(Held(u, px, t)) <= u.maxLeverage <==> Sum(AddedAll(u, px, t)) <= u.maxLeverage - Gross(Target(u, px, t))
  {
    hide Target, Held, Gross, AddedAll, Sum, Shortfalls;
    GrossWithCaps(u, px, t);
  }

  /** So it is where no cap cuts a trade; and a target at full leverage is exceeded as soon as one does, when only
      reductions are cut. */
  lemma GrossOfReductions(u: Setup, px: History, t: nat)
    requires Sound(u) && Shaped(px, u.n) && (u.exec.FlatBps? || u.liquid) && u.start <= t <= |px|
    ensures (forall i :: 0 <= i < u.n ==> Shortfalls(u, px, t)[i] == 0.0) ==> Gross(Held(u, px, t)) <= u.maxLeverage
    ensures OnlyReductionsCut(u, px, t) ==>
              (Gross(Held(u, px, t)) <= u.maxLeverage <==> Sum(Shortfalls(u, px, t)) <= u.maxLeverage - Gross(Target(u, px, t)))
    ensures OnlyReductionsCut(u, px, t) && Gross(Target(u, px, t)) == u.maxLeverage ==>
              (Gross(Held(u, px, t)) <= u.maxLeverage <==> forall i :: 0 <= i < u.n ==> Shortfalls(u, px, t)[i] == 0.0)
  {
    hide Target, Held, Gross, Shortfalls, AddedAll, Sum, OnlyReductionsCut;
    GrossWithCaps(u, px, t);
    TargetWithinLeverage(u, px, t);
    forall i | 0 <= i < u.n ensures Shortfalls(u, px, t)[i] >= 0.0 {
      AddedAt(u, px, t, i);
    }
    SumNotNegative(Shortfalls(u, px, t));
    SumIsZeroIff(Shortfalls(u, px, t));
  }

  /** A two-symbol run that switches from the first to the second, with a daily volume limit. */
  function Switcher(): Setup {
    Setup(2, 1, 1, 1.0, Realistic(0.0, 0.1, 0.0, 0.0), 1.0, false, true, 0.0,
          (_, t: nat) => if t == 1 then [Some(1.0), Some(0.0)] else [Some(0.0), Some(1.0)], _ => 0.0)
  }

  function Day2(adv: Option<real>): Day {
    Day([Some(1.0), Some(1.0)], [Quote(adv, None, None), Quote(None, None, None)])
  }

  function ThreeDays(): History {
    [Day2(None), Day2(Some(5.0)), Day2(None)]
  }

  lemma SwitcherTargets()
    ensures Target(Switcher(), ThreeDays(), 1) == [1.0, 0.0] && Target(Switcher(), ThreeDays(), 2) == [0.0, 1.0]
  {
    var u, px := Switcher(), ThreeDays();
    assert Raw(u, px, 1) == [1.0, 0.0];
    assert Raw(u, px, 2) == [0.0, 1.0];
    PairGross(1.0, 0.0);
    PairGross(0.0, 1.0);
  }

  /** One rebalance of the switcher: its caps and what they let it achieve. */
  lemma SwitcherFill(t: nat, x: real, y: real)
    requires 1 <= t <= 3
    requires var u, px := Switcher(), ThreeDays(); var prev, target := Before(u, px, t), Target(u, px, t);
      && x == Achieve(prev[0], target[0], 1.0, Cap(u.exec, px[t - 1].liq[0]))
      && y == Achieve(prev[1], target[1], 1.0, Cap(u.exec, px[t - 1].liq[1]))
    ensures Held(Switcher(), ThreeDays(), t) == [x, y]
  {
    hide Target, TradeCosts, Achieve, Cap, FillAt;
    StepIs(Switcher(), ThreeDays(), t);
  }

  lemma HalfFilled()
    ensures Achieve(1.0, 0.0, 1.0, Some(0.5)) == 0.5
  {}

  lemma SwitcherStarts()
    ensures Before(Switcher(), ThreeDays(), 1) == [0.0, 0.0]
  {
    hide FillAt;
  }

  lemma SwitcherSwitches()
    ensures Before(Switcher(), ThreeDays(), 2) == Held(Switcher(), ThreeDays(), 1)
  {
    hide FillAt;
  }

  lemma FirstFill()
    ensures Held(Switcher(), ThreeDays(), 1) == [1.0, 0.0]
  {
    hide Held, Before, Target, Achieve;
    SwitcherTargets();
    SwitcherStarts();
    Uncapped(0.0, 1.0, 1.0);
    Uncapped(0.0, 0.0, 1.0);
    SwitcherFill(1, 1.0, 0.0);
  }

  lemma SecondFill()
    ensures Held(Switcher(), ThreeDays(), 2) == [0.5, 1.0]
  {
    hide Held, Before, Target, Achieve;
    SwitcherTargets();
    SwitcherSwitches();
    FirstFill();
    HalfFilled();
    Uncapped(0.0, 1.0, 1.0);
    SwitcherFill(2, 0.5, 1.0);
  }

  /** With partial fills it may not: the old position is only partly sold when the new one is fully bought. */
  lemma PartialFillsMayExceedLeverage()
    ensures var u, px := Switcher(), ThreeDays();
      && Sound(u) && Causal(u.strategy) && Shaped(px, 2)
      && Held(u, px, 1) == [1.0, 0.0] && Held(u, px, 2) == [0.5, 1.0]
      && Gross(Held(u, px, 2)) > u.maxLeverage
  {
    hide Held, Gross;
    FirstFill();
    SecondFill();
    PairGross(0.5, 1.0);
  }

  lemma PairGross(x: real, y: real)
    ensures Gross([x, y]) == Abs(x) + Abs(y)
  {
    assert AbsAll([x, y]) == [Abs(x)] + [Abs(y)];
    SumSnoc([Abs(x)], Abs(y));
    assert [Abs(x)] == [] + [Abs(x)];
    SumSnoc([], Abs(x));
  }

  // --------------------------------------------------------------------------------- attribution

  /** What symbol i contributed over the rows from the start to `end`. */
  function Contribution(u: Setup, px: History, i: nat, end: nat): real
    requires Sound(u) && Shaped(px, u.n) && (u.exec.FlatBps? || u.liquid) && end <= |px| && i < u.n
  {
    if end <= u.start then 0.0
    else Contribution(u, px, i, end - 1) + Gain(px, end - 1, i, Held(u, px, Block(u, end - 1))[i])
  }

  function Contributions(u: Setup, px: History, end: nat): (r: seq<real>)
    requires Sound(u) && Shaped(px, u.n) && (u.exec.FlatBps? || u.liquid) && end <= |px|
    ensures |r| == u.n
  {
    seq(u.n, i requires 0 <= i < u.n => Contribution(u, px, i, end))
  }

  /** The daily carry, and on rebalance rows the cost less the delisting result. */
  function Drag(u: Setup, px: History, s: nat): real
    requires Sound(u) && Shaped(px, u.n) && (u.exec.FlatBps? || u.liquid) && u.start <= s < |px|
  {
    var t := Block(u, s);
    Carry(u.exec, Held(u, px, t)) + if s == t then FillAt(u, px, t).cost - DelistingPnl(u, px, t) else 0.0
  }

  function TotalNet(u: Setup, px: History, end: nat): real
    requires Sound(u) && Shaped(px, u.n) && (u.exec.FlatBps? || u.liquid) && end <= |px|
  {
    if end <= u.start then 0.0 else TotalNet(u, px, end - 1) + Net(u, px, end - 1)
  }

  function TotalDrag(u: Setup, px: History, end: nat): real
    requires Sound(u) && Shaped(px, u.n) && (u.exec.FlatBps? || u.liquid) && end <= |px|
  {
    if end <= u.start then 0.0 else TotalDrag(u, px, end - 1) + Drag(u, px, end - 1)
  }

  lemma NetAndDrag(u: Setup, px: History, s: nat)
    requires Sound(u) && Shaped(px, u.n) && (u.exec.FlatBps? || u.liquid) && u.start <= s < |px|
    ensures Net(u, px, s) + Drag(u, px, s) == Sum(Gains(px, s, Held(u, px, Block(u, s))))
  {
    hide FillAt, Sum, Carry, Gains, DelistingPnl;
  }

  /** Per-symbol contributions add up to the net return before costs, carry and delistings. */
  lemma {:induction false} AttributionReconciles(u: Setup, px: History, end: nat)
    requires Sound(u) && Shaped(px, u.n) && (u.exec.FlatBps? || u.liquid) && end <= |px|
    ensures Sum(Contributions(u, px, end)) == TotalNet(u, px, end) + TotalDrag(u, px, end)
  {
    hide FillAt, Net, Drag, Shaped, Gain, Sum;
    if end <= u.start {
      ZeroSum(Contributions(u, px, end));
    } else {
      AttributionReconciles(u, px, end - 1);
      NetAndDrag(u, px, end - 1);
      var gains := Gains(px, end - 1, Held(u, px, Block(u, end - 1)));
      assert Contributions(u, px, end) == Plus(Contributions(u, px, end - 1), gains);
      SumPlus(Contributions(u, px, end - 1), gains);
    }
  }

  // ---------------------------------------------------------------------------------- delistings

  /** The rebalance on row t charges the delisting loss for symbol i. */
  predicate Charged(u: Setup, px: History, t: nat, i: nat)
    requires Sound(u) && Shaped(px, u.n) && (u.exec.FlatBps? || u.liquid) && u.start <= t <= |px| && i < u.n
  {
    u.universe && Delisted(Before(u, px, t)[i], Listed(px, i, t - 1))
  }

  lemma UnlistedTarget(u: Setup, px: History, t: nat, i: nat)
    requires Sound(u) && 0 < t <= |px| && u.universe && i < u.n && !Listed(px, i, t - 1)
    ensures Target(u, px, t)[i] == 0.0
  {
    hide Listed, Capped, Raw;
  }

  /** Nothing is held in a symbol that has never had a price. */
  lemma {:induction false} NotHeldBeforeListing(u: Setup, px: History, t: nat, i: nat)
    requires Sound(u) && Shaped(px, u.n) && (u.exec.FlatBps? || u.liquid) && u.start <= t <= |px| && i < u.n && u.universe
    requires forall a :: 0 <= a < t ==> !Priced(px, a, i)
    ensures Held(u, px, t)[i] == 0.0
    decreases t
  {
    hide Target, FillAt, Shaped;
    assert !Listed(px, i, t - 1);
    UnlistedTarget(u, px, t, i);
    FillBetween(u, px, t, i);
    if t >= u.start + u.step {
      NotHeldBeforeListing(u, px, t - u.step, i);
    }
  }

  /** A held symbol that is no longer listed stays unlisted. */
  lemma GoneForGood(u: Setup, px: History, t: nat, i: nat, later: nat)
    requires Sound(u) && Shaped(px, u.n) && (u.exec.FlatBps? || u.liquid) && u.start <= t <= later <= |px| && i < u.n
    requires Charged(u, px, t, i)
    ensures !Listed(px, i, later - 1)
  {
    hide FillAt, Shaped;
    if forall a :: 0 <= a < t ==> !Priced(px, a, i) {
      if t >= u.start + u.step {
        NotHeldBeforeListing(u, px, t - u.step, i);
      }
    }
  }

  lemma FullyClosedIff(prev: real, aum: real, cap: Option<real>)
    requires aum > 0.0 && Usable(cap)
    ensures Achieve(prev, 0.0, aum, cap) == 0.0 <==> cap.None? || Abs(prev) * aum <= cap.value
  {
    hide Work;
    if cap.None? {
      TimesOver(-prev, aum);
    } else {
      ReachesTargetIff(prev, 0.0, aum, cap.value, 1);
      OneRebalance(prev, aum, cap);
      hide Achieve;
    }
  }

  lemma OneRebalance(prev: real, aum: real, cap: Option<real>)
    requires aum > 0.0
    ensures Work(prev, 0.0, aum, cap, 1) == Achieve(prev, 0.0, aum, cap)
  {
    hide Achieve;
    assert Work(prev, 0.0, aum, cap, 0) == prev;
  }

  /**
   A delisting loss is charged again at the next rebalance exactly when the participation cap stopped the
   position from being closed; with full fills it is charged once.
   */
  lemma ChargedAgainIff(u: Setup, px: History, t: nat, i: nat)
    requires Sound(u) && Shaped(px, u.n) && (u.exec.FlatBps? || u.liquid) && u.start <= t && t + u.step <= |px| && i < u.n
    requires Charged(u, px, t, i)
    ensures Charged(u, px, t + u.step, i) <==>
              u.exec.Realistic? && ShapedDay(px[t - 1], u.n) &&
              var cap := Cap(u.exec, px[t - 1].liq[i]); cap.Some? && cap.value < Abs(Before(u, px, t)[i]) * u.aum
  {
    hide Target, FillAt, Listed, Achieve, TradeCosts;
    GoneForGood(u, px, t, i, t);
    GoneForGood(u, px, t, i, t + u.step);
    UnlistedTarget(u, px, t, i);
    StepIs(u, px, t);
    assert ShapedDay(px[t - 1], u.n);
    assert Before(u, px, t + u.step)[i] == Held(u, px, t)[i];
    if u.exec.Realistic? {
      var q := px[t - 1].liq[i];
      CapUsable(u.exec, q);
      FullyClosedIff(Before(u, px, t)[i], u.aum, Cap(u.exec, q));
    }
  }
}
