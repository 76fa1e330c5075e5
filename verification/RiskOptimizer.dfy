/**
 The risk-model optimizer's portfolio constraints (research/mds/riskmodel.py, `optimize`, `_scale_gross`,
 `_apply_turnover_budget` and the rebalance loop of `optimized_weights`). The unconstrained solution, which needs
 matrix inversion, is an input.
 */
module RiskOptimizer {
  import opened Reals

  const PASSES: nat := 64
  const TOLERANCE := 0.000000001

  /** The position cap, gross target and turnover budget; None is no constraint. */
  datatype Limits = Limits(gross: real, cap: Option<real>, turnover: Option<real>)

  predicate Sane(l: Limits) {
    && l.gross >= 0.0
    && (l.cap.Some? ==> l.cap.value >= 0.0)
    && (l.turnover.Some? ==> l.turnover.value >= 0.0)
  }

  function ScaleGross(w: seq<real>, gross: real): (r: seq<real>)
    ensures |r| == |w|
  {
    var g := Gross(w);
    if g > 0.0 then Scale(gross / g, w) else w
  }

  function ClipAll(w: seq<real>, cap: real): (r: seq<real>)
    ensures |r| == |w|
  {
    seq(|w|, i requires 0 <= i < |w| => Clip(w[i], -cap, cap))
  }

  /** Subtracts the mean, to make the book dollar-neutral. */
  function Centered(w: seq<real>): (r: seq<real>)
    requires |w| > 0
    ensures |r| == |w|
  {
    Shift(w, Sum(w) / |w| as real)
  }

  function Shift(w: seq<real>, d: real): (r: seq<real>)
    ensures |r| == |w|
  {
    seq(|w|, i requires 0 <= i < |w| => w[i] - d)
  }

  /** One clip, recentre and rescale pass. */
  function Pass(w: seq<real>, cap: real, gross: real): (r: seq<real>)
    requires |w| > 0
    ensures |r| == |w|
  {
    ScaleGross(Centered(ClipAll(w, cap)), gross)
  }

  predicate Within(w: seq<real>, bound: real) {
    forall i :: 0 <= i < |w| ==> -bound <= w[i] <= bound
  }

  /** The book and whether the cap loop settled on it (rather than running out of passes and clipping). */
  datatype Settled = Settled(w: seq<real>, settled: bool)

  function CapLoop(w: seq<real>, cap: real, gross: real, passes: nat): (r: Settled)
    requires |w| > 0
    ensures |r.w| == |w|
    decreases passes
  {
    if passes == 0 then Settled(ClipAll(w, cap), false)
    else
      var p := Pass(w, cap, gross);
      if Within(p, cap + TOLERANCE) then Settled(p, true) else CapLoop(p, cap, gross, passes - 1)
  }

  /** The book before the turnover budget. */
  function Fit(raw: seq<real>, l: Limits): (r: Settled)
    requires |raw| > 0
    ensures |r.w| == |raw|
  {
    var w := ScaleGross(raw, l.gross);
    if l.cap.None? then Settled(w, true) else CapLoop(w, l.cap.value, l.gross, PASSES)
  }

  function Difference(w: seq<real>, v: seq<real>): (r: seq<real>)
    requires |w| == |v|
    ensures |r| == |w|
  {
    Plus(w, Scale(-1.0, v))
  }

  /** Trades only as far towards the target as the turnover budget allows. */
  function Budgeted(target: seq<real>, prev: seq<real>, maxTurnover: real): (r: seq<real>)
    requires |target| == |prev|
    ensures |r| == |target|
  {
    var delta := Difference(target, prev);
    var required := Gross(delta);
    if required <= maxTurnover || required == 0.0 then target
    else Plus(prev, Scale(maxTurnover / required, delta))
  }

  function Book(raw: seq<real>, l: Limits, prev: Option<seq<real>>): (r: seq<real>)
    requires |raw| > 0 && (prev.Some? ==> |prev.value| == |raw|)
    ensures |r| == |raw|
  {
    var w := Fit(raw, l).w;
    if l.turnover.Some? && prev.Some? then Budgeted(w, prev.value, l.turnover.value) else w
  }

  method Optimize(raw: seq<real>, l: Limits, prev: Option<seq<real>>) returns (w: seq<real>)
    requires |raw| > 0 && (prev.Some? ==> |prev.value| == |raw|)
    ensures w == Book(raw, l, prev)
  {
    hide ScaleGross, Pass, ClipAll, Within;
    w := ScaleGross(raw, l.gross);
    if l.cap.Some? {
      var cap := l.cap.value;
      var settled := false;
      var pass := 0;
      while pass < PASSES && !settled
        invariant pass <= PASSES && |w| == |raw|
        invariant Fit(raw, l) == if settled then Settled(w, true) else CapLoop(w, cap, l.gross, PASSES - pass)
      {
        var capped := Pass(w, cap, l.gross);
        settled := Within(capped, cap + TOLERANCE);
        w := capped;
        pass := pass + 1;
      }
      if !settled {
        w := ClipAll(w, cap);
      }
    }
    if l.turnover.Some? && prev.Some? {
      w := Budgeted(w, prev.value, l.turnover.value);
    }
  }

  // ------------------------------------------------------------------------------------ one book

  lemma ScaledGross(w: seq<real>, gross: real)
    requires gross >= 0.0
    ensures Gross(ScaleGross(w, gross)) == if Gross(w) > 0.0 then gross else 0.0
    ensures Sum(w) == 0.0 ==> Sum(ScaleGross(w, gross)) == 0.0
  {
    hide Gross, Sum, Scale;
    var g := Gross(w);
    GrossNotNegative(w);
    if g > 0.0 {
      NotNegativeOver(gross, g);
      GrossScale(gross / g, w);
      SumScale(gross / g, w);
      DivMul(gross, g);
    }
  }

  lemma GrossNotNegative(w: seq<real>)
    ensures Gross(w) >= 0.0
  {
    SumNotNegative(AbsAll(w));
  }

  lemma {:induction false} SumShift(w: seq<real>, d: real)
    ensures Sum(Shift(w, d)) == Sum(w) - |w| as real * d
  {
    if |w| > 0 {
      var n := |w| - 1;
      assert Shift(w, d)[..n] == Shift(w[..n], d);
      SumShift(w[..n], d);
      MulSum(d, |w| as real, n as real, 1.0);
    }
  }

  lemma CenteredIsNeutral(w: seq<real>)
    requires |w| > 0
    ensures Sum(Centered(w)) == 0.0
  {
    hide Sum, Shift;
    SumShift(w, Sum(w) / |w| as real);
    DivMul(Sum(w), |w| as real);
  }

  /** A pass leaves a dollar-neutral book with no more than the gross asked for. */
  lemma PassIsNeutral(w: seq<real>, cap: real, gross: real)
    requires |w| > 0 && gross >= 0.0
    ensures Sum(Pass(w, cap, gross)) == 0.0
    ensures Gross(Pass(w, cap, gross)) == gross || Gross(Pass(w, cap, gross)) == 0.0
  {
    hide ScaleGross, Centered, ClipAll, Gross, Sum;
    var c := Centered(ClipAll(w, cap));
    CenteredIsNeutral(ClipAll(w, cap));
    ScaledGross(c, gross);
  }

  lemma ClippedGross(w: seq<real>, cap: real)
    requires cap >= 0.0
    ensures Gross(ClipAll(w, cap)) <= Gross(w) && Within(ClipAll(w, cap), cap)
  {
    hide Sum;
    SumMono(AbsAll(ClipAll(w, cap)), AbsAll(w));
  }

  /** The cap loop's book respects the cap and the gross target; if the loop settled it is dollar-neutral too. */
  lemma {:induction false} CapLoopSound(w: seq<real>, cap: real, gross: real, passes: nat)
    requires |w| > 0 && cap >= 0.0 && gross >= 0.0 && Gross(w) <= gross
    ensures var r := CapLoop(w, cap, gross, passes);
      && Within(r.w, cap + TOLERANCE) && Gross(r.w) <= gross && (r.settled ==> Sum(r.w) == 0.0)
    decreases passes
  {
    hide Pass, Gross, ClipAll, Sum;
    if passes == 0 {
      ClippedGross(w, cap);
    } else {
      PassIsNeutral(w, cap, gross);
      if !Within(Pass(w, cap, gross), cap + TOLERANCE) {
        hide Within;
        CapLoopSound(Pass(w, cap, gross), cap, gross, passes - 1);
      }
    }
  }

  lemma FitSound(raw: seq<real>, l: Limits)
    requires |raw| > 0 && Sane(l)
    ensures var r := Fit(raw, l);
      && Gross(r.w) <= l.gross
      && (l.cap.Some? ==> Within(r.w, l.cap.value + TOLERANCE))
      && (r.settled && (Sum(raw) == 0.0 || l.cap.Some?) ==> Sum(r.w) == 0.0)
  {
    hide ScaleGross, Gross, CapLoop, Within, Sum;
    ScaledGross(raw, l.gross);
    if l.cap.Some? {
      CapLoopSound(ScaleGross(raw, l.gross), l.cap.value, l.gross, PASSES);
    }
  }

  // --------------------------------------------------------------------------- whose book it still is

  /** No two names are ranked the other way round. */
  ghost predicate KeepsRanking(w: seq<real>, v: seq<real>) {
    && |w| == |v|
    && forall i, j :: 0 <= i < |w| && 0 <= j < |w| && w[i] <= w[j] ==> v[i] <= v[j]
  }

  lemma RankingOfRanking(w: seq<real>, v: seq<real>, u: seq<real>)
    requires KeepsRanking(w, v) && KeepsRanking(v, u)
    ensures KeepsRanking(w, u)
  {}

  lemma ScaleKeepsRanking(w: seq<real>, k: real)
    requires k >= 0.0
    ensures KeepsRanking(w, Scale(k, w))
  {
    forall i, j | 0 <= i < |w| && 0 <= j < |w| && w[i] <= w[j] ensures Scale(k, w)[i] <= Scale(k, w)[j] {
      MulMono(k, w[i], w[j]);
    }
  }

  lemma ScaledKeepsRanking(w: seq<real>, gross: real)
    requires gross >= 0.0
    ensures KeepsRanking(w, ScaleGross(w, gross))
  {
    hide Gross, Scale;
    if Gross(w) > 0.0 {
      NotNegativeOver(gross, Gross(w));
      ScaleKeepsRanking(w, gross / Gross(w));
    }
  }

  lemma PassKeepsRanking(w: seq<real>, cap: real, gross: real)
    requires |w| > 0 && cap >= 0.0 && gross >= 0.0
    ensures KeepsRanking(w, Pass(w, cap, gross))
  {
    hide ScaleGross, Sum;
    var clipped := ClipAll(w, cap);
    ScaledKeepsRanking(Centered(clipped), gross);
    assert KeepsRanking(w, Centered(clipped));
    RankingOfRanking(w, Centered(clipped), Pass(w, cap, gross));
  }

  lemma {:induction false} CapLoopKeepsRanking(w: seq<real>, cap: real, gross: real, passes: nat)
    requires |w| > 0 && cap >= 0.0 && gross >= 0.0
    ensures KeepsRanking(w, CapLoop(w, cap, gross, passes).w)
    decreases passes
  {
    hide Pass, KeepsRanking, ClipAll, Within;
    if passes == 0 {
      ClipKeepsRanking(w, cap);
    } else {
      var p := Pass(w, cap, gross);
      PassKeepsRanking(w, cap, gross);
      if !Within(p, cap + TOLERANCE) {
        CapLoopKeepsRanking(p, cap, gross, passes - 1);
        RankingOfRanking(w, p, CapLoop(p, cap, gross, passes - 1).w);
      }
    }
  }

  lemma ClipKeepsRanking(w: seq<real>, cap: real)
    requires cap >= 0.0
    ensures KeepsRanking(w, ClipAll(w, cap))
  {}

  /** However often it is clipped, recentred and rescaled, the book ranks no two names against the solution; without a
      cap it is the solution, scaled to the gross target. */
  lemma FitKeepsRanking(raw: seq<real>, l: Limits, i: nat)
    requires |raw| > 0 && Sane(l) && i < |raw|
    ensures KeepsRanking(raw, Fit(raw, l).w)
    ensures l.cap.None? ==> Fit(raw, l).w[i] * Gross(raw) == if Gross(raw) > 0.0 then raw[i] * l.gross else 0.0
  {
    hide KeepsRanking, CapLoop, Gross;
    ScaledKeepsRanking(raw, l.gross);
    GrossNotNegative(raw);
    if l.cap.Some? {
      var w := ScaleGross(raw, l.gross);
      CapLoopKeepsRanking(w, l.cap.value, l.gross, PASSES);
      RankingOfRanking(raw, w, Fit(raw, l).w);
    } else if Gross(raw) > 0.0 {
      DivMul(l.gross, Gross(raw));
      Reorder(l.gross / Gross(raw), raw[i], Gross(raw));
    }
  }

  // --------------------------------------------------------------------- when the cap loop settles at once

  lemma ClipsNothing(w: seq<real>, cap: real)
    requires Within(w, cap)
    ensures ClipAll(w, cap) == w
  {}

  lemma CentredAlready(w: seq<real>)
    requires |w| > 0 && Sum(w) == 0.0
    ensures Centered(w) == w
  {
    hide Sum;
    assert 0.0 / |w| as real == 0.0;
    assert Shift(w, 0.0) == w;
  }

  lemma ScaledAlready(w: seq<real>, gross: real)
    requires Gross(w) == gross || Gross(w) == 0.0
    ensures ScaleGross(w, gross) == w
  {
    hide Gross;
    if Gross(w) > 0.0 {
      assert gross / Gross(w) == 1.0;
      assert Scale(1.0, w) == w;
    }
  }

  /** A neutral solution that fits the cap once scaled is taken as it is, on the first pass. */
  lemma NeutralBookSettles(raw: seq<real>, l: Limits)
    requires |raw| > 0 && Sane(l) && l.cap.Some? && Sum(raw) == 0.0 && Within(ScaleGross(raw, l.gross), l.cap.value)
    ensures Fit(raw, l) == Settled(ScaleGross(raw, l.gross), true)
  {
    hide ScaleGross, Gross, Sum, ClipAll, Centered;
    var w, cap := ScaleGross(raw, l.gross), l.cap.value;
    ScaledGross(raw, l.gross);
    ClipsNothing(w, cap);
    CentredAlready(w);
    ScaledAlready(w, l.gross);
    assert Pass(w, cap, l.gross) == w;
  }

  // ------------------------------------------------------------------ when the cap loop cannot settle

  function Longs(w: seq<real>): real {
    if |w| == 0 then 0.0 else Longs(w[..|w| - 1]) + Max(w[|w| - 1], 0.0)
  }

  function LongCount(w: seq<real>): nat {
    if |w| == 0 then 0 else LongCount(w[..|w| - 1]) + if w[|w| - 1] > 0.0 then 1 else 0
  }

  function Negated(w: seq<real>): (r: seq<real>)
    ensures |r| == |w|
  {
    seq(|w|, i requires 0 <= i < |w| => -w[i])
  }

  /** Gross exposure is longs plus shorts and net exposure is longs less shorts. */
  lemma {:induction false} LongsAndShorts(w: seq<real>)
    ensures Gross(w) == Longs(w) + Longs(Negated(w)) && Sum(w) == Longs(w) - Longs(Negated(w))
    ensures LongCount(w) + LongCount(Negated(w)) <= |w|
  {
    if |w| > 0 {
      var n := |w| - 1;
      assert Negated(w)[..n] == Negated(w[..n]) && AbsAll(w)[..n] == AbsAll(w[..n]);
      LongsAndShorts(w[..n]);
    }
  }

  lemma {:induction false} LongsBounded(w: seq<real>, bound: real)
    requires bound >= 0.0 && forall i :: 0 <= i < |w| ==> w[i] <= bound
    ensures Longs(w) <= LongCount(w) as real * bound
  {
    if |w| > 0 {
      var k := LongCount(w[..|w| - 1]);
      LongsBounded(w[..|w| - 1], bound);
      MulSum(bound, (k + 1) as real, k as real, 1.0);
    }
  }

  lemma MoreNames(few: nat, many: nat, bound: real)
    requires few <= many && bound >= 0.0
    ensures few as real * bound <= many as real * bound
  {}

  /** A dollar-neutral book holds at most half its names, rounded down, at the bound on its smaller side. */
  lemma NeutralGrossIsLimited(w: seq<real>, bound: real)
    requires bound >= 0.0 && Within(w, bound) && Sum(w) == 0.0
    ensures Gross(w) <= 2.0 * ((|w| / 2) as real * bound)
  {
    hide Gross, Sum, Longs, LongCount;
    var shorts, half := Negated(w), |w| / 2;
    LongsAndShorts(w);
    if LongCount(w) <= half {
      SmallerSide(w, bound, half);
    } else {
      SmallerSide(shorts, bound, half);
    }
  }

  lemma SmallerSide(w: seq<real>, bound: real, half: nat)
    requires bound >= 0.0 && LongCount(w) <= half && forall i :: 0 <= i < |w| ==> w[i] <= bound
    ensures 2.0 * Longs(w) <= 2.0 * (half as real * bound)
  {
    hide LongCount, Longs;
    LongsBounded(w, bound);
    MoreNames(LongCount(w), half, bound);
  }

  /**
   With a gross target larger than a neutral book can carry under the cap, the loop can only settle on an empty
   book: every other run exhausts its passes and ends in the clip.
   */
  lemma {:induction false} CrowdedNeverSettles(w: seq<real>, cap: real, gross: real, passes: nat)
    requires |w| > 0 && cap >= 0.0 && gross > 2.0 * ((|w| / 2) as real * (cap + TOLERANCE))
    ensures CapLoop(w, cap, gross, passes).settled ==> Gross(CapLoop(w, cap, gross, passes).w) == 0.0
    decreases passes
  {
    hide Pass, Gross, ClipAll, Sum;
    if passes > 0 {
      var p := Pass(w, cap, gross);
      RoomNotNegative(|w|, cap);
      PassIsNeutral(w, cap, gross);
      if Within(p, cap + TOLERANCE) {
        NeutralGrossIsLimited(p, cap + TOLERANCE);
      } else {
        hide Within;
        CrowdedNeverSettles(p, cap, gross, passes - 1);
      }
    }
  }

  lemma RoomNotNegative(n: nat, cap: real)
    requires cap >= 0.0
    ensures 2.0 * ((n / 2) as real * (cap + TOLERANCE)) >= 0.0
  {
    MulMono((n / 2) as real, 0.0, cap + TOLERANCE);
  }

  lemma Three(x: real, y: real, z: real)
    ensures Sum([x, y, z]) == x + y + z && Gross([x, y, z]) == Abs(x) + Abs(y) + Abs(z)
  {
    SumThree(x, y, z);
    SumThree(Abs(x), Abs(y), Abs(z));
    assert AbsAll([x, y, z]) == [Abs(x), Abs(y), Abs(z)];
  }

  lemma SumThree(x: real, y: real, z: real)
    ensures Sum([x, y, z]) == x + y + z
  {
    assert [x, y, z] == [] + [x] + [y] + [z];
    SumSnoc([], x);
    SumSnoc([] + [x], y);
    SumSnoc([] + [x] + [y], z);
  }

  const LOPSIDED: seq<real> := [0.5, -0.25, -0.25]

  lemma LopsidedIsStuck()
    ensures Pass(LOPSIDED, 0.4, 1.0) == LOPSIDED == ScaleGross(LOPSIDED, 1.0)
  {
    var clipped := [0.4, -0.25, -0.25];
    var centered := [0.4 + 0.1 / 3.0, -0.25 + 0.1 / 3.0, -0.25 + 0.1 / 3.0];
    assert ClipAll(LOPSIDED, 0.4) == clipped;
    Three(0.4, -0.25, -0.25);
    Three(0.5, -0.25, -0.25);
    Three(0.4 + 0.1 / 3.0, -0.25 + 0.1 / 3.0, -0.25 + 0.1 / 3.0);
    hide Sum, Gross, ClipAll;
    assert Centered(clipped) == centered;
  }

  lemma {:induction false} LopsidedNeverSettles(passes: nat)
    ensures CapLoop(LOPSIDED, 0.4, 1.0, passes) == Settled([0.4, -0.25, -0.25], false)
    decreases passes
  {
    if passes > 0 {
      hide Pass;
      LopsidedIsStuck();
      assert LOPSIDED[0] == 0.5;
      LopsidedNeverSettles(passes - 1);
    }
  }

  /** The clip that ends an exhausted loop can break neutrality: here the book is a tenth short. */
  lemma FallbackBreaksNeutrality()
    ensures Sum(LOPSIDED) == 0.0
    ensures var r := Fit(LOPSIDED, Limits(1.0, Some(0.4), None)); !r.settled && Sum(r.w) == -0.1
  {
    hide CapLoop, ScaleGross, Pass;
    LopsidedIsStuck();
    LopsidedNeverSettles(PASSES);
    Three(0.4, -0.25, -0.25);
    Three(0.5, -0.25, -0.25);
  }

  // ------------------------------------------------------------------------------ turnover budget

  /** Part of the way from v to w. */
  function Blend(v: seq<real>, w: seq<real>, k: real): (r: seq<real>)
    requires |v| == |w|
    ensures |r| == |v|
  {
    Plus(v, Scale(k, Difference(w, v)))
  }

  lemma BlendAt(x: real, y: real, k: real, bound: real)
    requires 0.0 <= k <= 1.0 && -bound <= x <= bound && -bound <= y <= bound
    ensures -bound <= x + k * (y + -1.0 * x) <= bound
  {
    BlendSplit(x, y, 1.0 - k, k);
    Convex(1.0 - k, k, x, y, bound);
    BlendSplit(-x, -y, 1.0 - k, k);
    Convex(1.0 - k, k, -x, -y, bound);
  }

  lemma BlendSplit(x: real, y: real, j: real, k: real)
    requires j + k == 1.0
    ensures x + k * (y + -1.0 * x) == j * x + k * y
  {
    MulSum(x, 1.0, j, k);
    MulSum(k, y + -1.0 * x, y, -x);
  }

  lemma Parts(x: real, j: real, k: real)
    requires j + k == 1.0
    ensures j * x + k * x == x
  {
    assert (j + k) * x == x;
  }

  lemma Weighted(j: real, x: real, bound: real) returns (product: real, cap: real)
    requires 0.0 <= j && x <= bound
    ensures product == j * x && cap == j * bound && product <= cap
  {
    MulMono(j, x, bound);
    product, cap := j * x, j * bound;
  }

  lemma Convex(j: real, k: real, x: real, y: real, bound: real)
    requires 0.0 <= j && 0.0 <= k && j + k == 1.0 && x <= bound && y <= bound
    ensures j * x + k * y <= bound
  {
    var a, c := Weighted(j, x, bound);
    var b, d := Weighted(k, y, bound);
    Parts(bound, j, k);
  }

  lemma BlendWithin(v: seq<real>, w: seq<real>, k: real, bound: real)
    requires |v| == |w| && 0.0 <= k <= 1.0 && Within(v, bound) && Within(w, bound)
    ensures Within(Blend(v, w, k), bound)
  {
    forall i | 0 <= i < |v| ensures -bound <= Blend(v, w, k)[i] <= bound {
      BlendAt(v[i], w[i], k, bound);
      assert Blend(v, w, k)[i] == v[i] + k * (w[i] + -1.0 * v[i]);
    }
  }

  lemma BlendSum(v: seq<real>, w: seq<real>, k: real)
    requires |v| == |w|
    ensures Sum(Blend(v, w, k)) == (1.0 - k) * Sum(v) + k * Sum(w)
  {
    hide Sum, Scale, Plus;
    var d := Difference(w, v);
    SumPlus(v, Scale(k, d));
    SumScale(k, d);
    SumPlus(w, Scale(-1.0, v));
    SumScale(-1.0, v);
    BlendSplit(Sum(v), Sum(w), 1.0 - k, k);
  }

  lemma TriangleAt(x: real, y: real, k: real)
    requires 0.0 <= k <= 1.0
    ensures Abs(x + k * (y + -1.0 * x)) <= (1.0 - k) * Abs(x) + k * Abs(y)
  {
    BlendSplit(x, y, 1.0 - k, k);
    AbsProduct(1.0 - k, x);
    AbsProduct(k, y);
  }

  lemma BlendGross(v: seq<real>, w: seq<real>, k: real)
    requires |v| == |w| && 0.0 <= k <= 1.0
    ensures Gross(Blend(v, w, k)) <= (1.0 - k) * Gross(v) + k * Gross(w)
  {
    hide Sum;
    var bound := Plus(Scale(1.0 - k, AbsAll(v)), Scale(k, AbsAll(w)));
    forall i | 0 <= i < |v| ensures AbsAll(Blend(v, w, k))[i] <= bound[i] {
      TriangleAt(v[i], w[i], k);
      assert Blend(v, w, k)[i] == v[i] + k * (w[i] + -1.0 * v[i]);
    }
    SumMono(AbsAll(Blend(v, w, k)), bound);
    hide AbsAll, Blend;
    SumPlus(Scale(1.0 - k, AbsAll(v)), Scale(k, AbsAll(w)));
    SumScale(1.0 - k, AbsAll(v));
    SumScale(k, AbsAll(w));
  }

  /** The turnover of trading part of the way is that part of the whole trade. */
  lemma BlendTurnover(v: seq<real>, w: seq<real>, k: real)
    requires |v| == |w| && 0.0 <= k
    ensures Gross(Difference(Blend(v, w, k), v)) == k * Gross(Difference(w, v))
  {
    hide Gross;
    var d := Difference(w, v);
    assert Difference(Blend(v, w, k), v) == Scale(k, d);
    hide Scale, Difference;
    GrossScale(k, d);
  }

  lemma Share(budget: real, required: real)
    requires 0.0 <= budget < required
    ensures 0.0 <= budget / required <= 1.0 && budget / required * required == budget
  {}

  lemma BudgetedIsABlend(target: seq<real>, prev: seq<real>, budget: real) returns (k: real)
    requires |target| == |prev| && budget >= 0.0
    ensures 0.0 <= k <= 1.0
    ensures var required := Gross(Difference(target, prev));
      if required <= budget then Budgeted(target, prev, budget) == target
      else Budgeted(target, prev, budget) == Blend(prev, target, k) && k * required == budget
  {
    hide Gross, Difference, Plus, Scale;
    var required := Gross(Difference(target, prev));
    k := 1.0;
    if required > budget {
      k := budget / required;
      Share(budget, required);
    }
  }

  /** A budget is spent in full unless the whole trade costs less, and every name trades its share of it. */
  lemma BudgetIsSpent(target: seq<real>, prev: seq<real>, budget: real, i: nat)
    requires |target| == |prev| && budget >= 0.0 && i < |target|
    ensures var required := Gross(Difference(target, prev));
      var spent := Difference(Budgeted(target, prev, budget), prev);
      && Gross(spent) == Min(required, budget)
      && spent[i] * required == Difference(target, prev)[i] * Min(required, budget)
  {
    hide Gross, Difference, Budgeted, Blend;
    var k := BudgetedIsABlend(target, prev, budget);
    var required := Gross(Difference(target, prev));
    if required > budget {
      BlendTurnover(prev, target, k);
      BlendTrade(prev, target, k, i);
      Reorder(k, Difference(target, prev)[i], required);
    }
  }

  lemma BlendTrade(v: seq<real>, w: seq<real>, k: real, i: nat)
    requires |v| == |w| && i < |v|
    ensures Difference(Blend(v, w, k), v)[i] == k * Difference(w, v)[i]
  {}

  lemma Reorder(k: real, x: real, y: real)
    ensures k * x * y == x * (k * y)
  {}

  /** The budgeted trade costs at most the budget and leaves the box, the gross and neutrality as they were. */
  lemma BudgetKeeps(target: seq<real>, prev: seq<real>, budget: real, bound: real, gross: real)
    requires |target| == |prev| && budget >= 0.0
    ensures Gross(Difference(Budgeted(target, prev, budget), prev)) <= budget
    ensures Within(target, bound) && Within(prev, bound) ==> Within(Budgeted(target, prev, budget), bound)
    ensures Gross(target) <= gross && Gross(prev) <= gross ==> Gross(Budgeted(target, prev, budget)) <= gross
    ensures Sum(target) == 0.0 && Sum(prev) == 0.0 ==> Sum(Budgeted(target, prev, budget)) == 0.0
  {
    hide Gross, Difference, Within, Sum, Budgeted, Blend;
    var k := BudgetedIsABlend(target, prev, budget);
    if Gross(Difference(target, prev)) > budget {
      BlendTurnover(prev, target, k);
      BlendSum(prev, target, k);
      if Within(target, bound) && Within(prev, bound) {
        BlendWithin(prev, target, k, bound);
      }
      if Gross(target) <= gross && Gross(prev) <= gross {
        BlendGross(prev, target, k);
        Convex(1.0 - k, k, Gross(prev), Gross(target), gross);
      }
    }
  }

  // ---------------------------------------------------------------------------------------- a run

  /** One rebalance date: how many factor returns there are by then, and the unconstrained solution. */
  datatype Date = Date(rows: nat, raw: seq<real>)

  const MIN_ROWS: nat := 20

  predicate Fitted(d: Date, lookback: nat) {
    (if d.rows <= lookback then d.rows else lookback) >= MIN_ROWS
  }

  /** The book last optimized by the time the first k dates are done. */
  function Last(dates: seq<Date>, l: Limits, lookback: nat, n: nat): (r: Option<seq<real>>)
    requires n > 0 && forall i :: 0 <= i < |dates| ==> |dates[i].raw| == n
    ensures r.Some? ==> |r.value| == n
  {
    if |dates| == 0 then None
    else
      var d := dates[|dates| - 1];
      var prev := Last(dates[..|dates| - 1], l, lookback, n);
      if Fitted(d, lookback) then Some(Book(d.raw, l, prev)) else prev
  }

  /** The weights held from the last of these dates to the next: none until there is enough history. */
  function Frame(dates: seq<Date>, l: Limits, lookback: nat, n: nat): (r: seq<real>)
    requires n > 0 && |dates| > 0 && forall i :: 0 <= i < |dates| ==> |dates[i].raw| == n
    ensures |r| == n
  {
    var w := Last(dates, l, lookback, n);
    if Fitted(dates[|dates| - 1], lookback) && w.Some? then w.value else seq(n, _ => 0.0)
  }

  /** With twenty factor returns in the window the frame holds the optimized book, before that nothing. */
  lemma FrameIs(dates: seq<Date>, l: Limits, lookback: nat, n: nat)
    requires n > 0 && |dates| > 0 && forall i :: 0 <= i < |dates| ==> |dates[i].raw| == n
    ensures var d, prev := dates[|dates| - 1], Last(dates[..|dates| - 1], l, lookback, n);
      if d.rows >= 20 && lookback >= 20 then Frame(dates, l, lookback, n) == Book(d.raw, l, prev)
      else (forall i :: 0 <= i < n ==> Frame(dates, l, lookback, n)[i] == 0.0) && Last(dates, l, lookback, n) == prev
  {
    hide Book;
  }

  /** The walk-forward loop: one block of weights per rebalance date. */
  method OptimizedWeights(dates: seq<Date>, l: Limits, lookback: nat, n: nat) returns (frame: seq<seq<real>>)
    requires n > 0 && forall i :: 0 <= i < |dates| ==> |dates[i].raw| == n
    ensures |frame| == |dates|
    ensures forall i :: 0 <= i < |dates| ==> frame[i] == Frame(dates[..i + 1], l, lookback, n)
  {
    hide Book;
    frame := [];
    var prev: Option<seq<real>> := None;
    for i := 0 to |dates|
      invariant |frame| == i && prev == Last(dates[..i], l, lookback, n)
      invariant forall j :: 0 <= j < i ==> frame[j] == Frame(dates[..j + 1], l, lookback, n)
    {
      assert dates[..i + 1][..i] == dates[..i];
      var block := seq(n, _ => 0.0);
      if Fitted(dates[i], lookback) {
        block := Optimize(dates[i].raw, l, prev);
        prev := Some(block);
      }
      frame := frame + [block];
    }
  }

  /** What every optimized book satisfies. */
  predicate Compliant(w: seq<real>, l: Limits) {
    Gross(w) <= l.gross && (l.cap.Some? ==> Within(w, l.cap.value + TOLERANCE))
  }

  lemma BookCompliant(raw: seq<real>, l: Limits, prev: Option<seq<real>>)
    requires |raw| > 0 && Sane(l) && (prev.Some? ==> |prev.value| == |raw| && Compliant(prev.value, l))
    ensures Compliant(Book(raw, l, prev), l)
    ensures l.turnover.Some? && prev.Some? ==> Gross(Difference(Book(raw, l, prev), prev.value)) <= l.turnover.value
    ensures l.cap.Some? && Fit(raw, l).settled && (prev.Some? ==> Sum(prev.value) == 0.0) ==> Sum(Book(raw, l, prev)) == 0.0
  {
    hide Fit, Gross, Within, Budgeted, Difference, Sum;
    FitSound(raw, l);
    if l.turnover.Some? && prev.Some? {
      var bound := if l.cap.Some? then l.cap.value + TOLERANCE else 0.0;
      BudgetKeeps(Fit(raw, l).w, prev.value, l.turnover.value, bound, l.gross);
    }
  }

  /** No cap loop up to now ran out of passes. */
  predicate AllSettled(dates: seq<Date>, l: Limits, lookback: nat) {
    forall i :: 0 <= i < |dates| && Fitted(dates[i], lookback) && |dates[i].raw| > 0 ==> Fit(dates[i].raw, l).settled
  }

  /**
   At every rebalance of a run the book respects the position cap and the gross target; and it is dollar-neutral
   as long as no cap loop so far has run out of passes.
   */
  lemma {:induction false} RunCompliant(dates: seq<Date>, l: Limits, lookback: nat, n: nat)
    requires n > 0 && Sane(l) && forall i :: 0 <= i < |dates| ==> |dates[i].raw| == n
    ensures var w := Last(dates, l, lookback, n);
      w.Some? ==> Compliant(w.value, l) && (l.cap.Some? && AllSettled(dates, l, lookback) ==> Sum(w.value) == 0.0)
  {
    hide Book, Compliant, Fit, Sum;
    if |dates| > 0 {
      var k := |dates| - 1;
      RunCompliant(dates[..k], l, lookback, n);
      BookCompliant(dates[k].raw, l, Last(dates[..k], l, lookback, n));
      if AllSettled(dates, l, lookback) {
        assert forall i :: 0 <= i < k ==> dates[..k][i] == dates[i];
        assert AllSettled(dates[..k], l, lookback);
      }
    }
  }

  lemma {:induction false} FittedBefore(dates: seq<Date>, l: Limits, lookback: nat, n: nat)
    requires n > 0 && forall i :: 0 <= i < |dates| ==> |dates[i].raw| == n
    ensures Last(dates, l, lookback, n).Some? <==> exists i :: 0 <= i < |dates| && Fitted(dates[i], lookback)
  {
    if |dates| > 0 {
      var k := |dates| - 1;
      FittedBefore(dates[..k], l, lookback, n);
      assert forall i :: 0 <= i < k ==> dates[..k][i] == dates[i];
    }
  }

  /**
   From the second optimized book on, what the frame trades at a rebalance is within the turnover budget: since
   history only grows, once there is enough of it every later date is optimized too.
   */
  lemma RunWithinTurnover(dates: seq<Date>, l: Limits, lookback: nat, n: nat)
    requires n > 0 && Sane(l) && l.turnover.Some? && |dates| >= 2 && forall i :: 0 <= i < |dates| ==> |dates[i].raw| == n
    requires forall i, j :: 0 <= i < j < |dates| ==> dates[i].rows <= dates[j].rows
    requires Last(dates[..|dates| - 1], l, lookback, n).Some?
    ensures Gross(Difference(Frame(dates, l, lookback, n), Frame(dates[..|dates| - 1], l, lookback, n))) <= l.turnover.value
  {
    hide Book, Compliant, Gross, Difference, Last;
    var k := |dates| - 1;
    FittedBefore(dates[..k], l, lookback, n);
    var i :| 0 <= i < k && Fitted(dates[..k][i], lookback);
    assert dates[..k][i] == dates[i] && dates[..k][k - 1] == dates[k - 1];
    assert Fitted(dates[k - 1], lookback) && Fitted(dates[k], lookback);
    RunCompliant(dates[..k], l, lookback, n);
    var prev := Last(dates[..k], l, lookback, n);
    BookCompliant(dates[k].raw, l, prev);
    LastIs(dates, l, lookback, n);
  }

  lemma LastIs(dates: seq<Date>, l: Limits, lookback: nat, n: nat)
    requires n > 0 && |dates| > 0 && forall i :: 0 <= i < |dates| ==> |dates[i].raw| == n
    requires Fitted(dates[|dates| - 1], lookback)
    ensures Last(dates, l, lookback, n) == Some(Book(dates[|dates| - 1].raw, l, Last(dates[..|dates| - 1], l, lookback, n)))
  {}
}
