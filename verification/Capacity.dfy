/**
 Capacity and crowding (research/mds/capacity.py): splitting a budget across signals whose return falls
 with the capital deployed, by bisection on the shadow price of capital; and the equilibrium of players
 crowding one signal.
 */
module Capacity {
  import opened Reals

  /** A signal's edge at zero size and the rate at which its own impact erodes it. */
  datatype Signal = Signal(mu: real, lam: real)

  predicate Valid(signals: seq<Signal>) {
    |signals| > 0 && forall i :: 0 <= i < |signals| ==> signals[i].lam > 0.0
  }

  /** What a signal is allotted at shadow price nu: max(0, (mu - nu) / 2 lam). */
  function Fill(s: Signal, nu: real): real
    requires s.lam > 0.0
  {
    Max((s.mu - nu) / (2.0 * s.lam), 0.0)
  }

  function Fills(signals: seq<Signal>, nu: real): (c: seq<real>)
    requires Valid(signals)
    ensures |c| == |signals|
  {
    seq(|signals|, i requires 0 <= i < |signals| => Fill(signals[i], nu))
  }

  /** The capital deployed at shadow price nu. */
  function Spend(signals: seq<Signal>, nu: real): real
    requires Valid(signals)
  {
    Sum(Fills(signals, nu))
  }

  function Earn(s: Signal, c: real): real {
    s.mu * c - s.lam * (c * c)
  }

  /** Total impact-aware profit of deploying c. */
  function Profit(signals: seq<Signal>, c: seq<real>): real
    requires |c| == |signals|
  {
    Sum(Earnings(signals, c))
  }

  function Earnings(signals: seq<Signal>, c: seq<real>): (r: seq<real>)
    requires |c| == |signals|
    ensures |r| == |c|
  {
    seq(|c|, i requires 0 <= i < |c| => Earn(signals[i], c[i]))
  }

  function MinMu(signals: seq<Signal>): (r: real)
    requires |signals| > 0
    ensures forall i :: 0 <= i < |signals| ==> r <= signals[i].mu
  {
    if |signals| == 1 then signals[0].mu else Min(MinMu(signals[..|signals| - 1]), signals[|signals| - 1].mu)
  }

  function MaxMu(signals: seq<Signal>): (r: real)
    requires |signals| > 0
    ensures forall i :: 0 <= i < |signals| ==> signals[i].mu <= r
  {
    if |signals| == 1 then signals[0].mu else Max(MaxMu(signals[..|signals| - 1]), signals[|signals| - 1].mu)
  }

  function MaxLam(signals: seq<Signal>): (r: real)
    requires |signals| > 0
    ensures forall i :: 0 <= i < |signals| ==> signals[i].lam <= r
  {
    if |signals| == 1 then signals[0].lam else Max(MaxLam(signals[..|signals| - 1]), signals[|signals| - 1].lam)
  }

  function Pow2(k: nat): (p: real)
    ensures p > 0.0
  {
    if k == 0 then 1.0 else 2.0 * Pow2(k - 1)
  }

  const PASSES: nat := 200

  function LowPrice(signals: seq<Signal>, budget: real): real
    requires |signals| > 0
  {
    MinMu(signals) - (2.0 * MaxLam(signals)) * budget - 1.0
  }

  /** How fast spending falls as the shadow price rises, at most. */
  function Steepness(signals: seq<Signal>): real
    requires Valid(signals)
  {
    Sum(Slopes(signals))
  }

  function Slopes(signals: seq<Signal>): (r: seq<real>)
    requires Valid(signals)
    ensures |r| == |signals|
  {
    seq(|signals|, i requires 0 <= i < |signals| => Slope(signals[i]))
  }

  /** The most the bisection can leave unspent: its last bracket at the steepest fall in spending. */
  function Leftover(signals: seq<Signal>, budget: real): real
    requires Valid(signals)
  {
    (MaxMu(signals) - LowPrice(signals, budget)) / Pow2(PASSES) * Steepness(signals)
  }

  /** The upper end of the bracket [lo, hi] after so many halvings. */
  function Search(signals: seq<Signal>, budget: real, lo: real, hi: real, passes: nat): real
    requires Valid(signals)
    decreases passes
  {
    if passes == 0 then hi
    else
      var mid := 0.5 * (lo + hi);
      if Spend(signals, mid) > budget then Search(signals, budget, mid, hi, passes - 1)
      else Search(signals, budget, lo, mid, passes - 1)
  }

  function ShadowPrice(signals: seq<Signal>, budget: real): real
    requires Valid(signals)
  {
    Search(signals, budget, LowPrice(signals, budget), MaxMu(signals), PASSES)
  }

  /** Splits `budget` by 200 halvings of the bracket [lo, hi] on the shadow price. */
  method Allocate(signals: seq<Signal>, budget: real) returns (c: seq<real>, ghost nu: real)
    requires Valid(signals) && budget >= 0.0
    ensures c == Fills(signals, nu) && nu == ShadowPrice(signals, budget)
    ensures 0.0 <= budget - Sum(c) <= Leftover(signals, budget)
  {
    hide Fills, Steepness, LowPrice, MaxMu, Spend, Search, Pow2, Sum;
    var lo := LowPrice(signals, budget);
    var hi := MaxMu(signals);
    LowPriceOverspends(signals, budget);
    HighPriceSpendsNothing(signals);
    ghost var width := hi - lo;
    NoPass(signals, budget, lo, hi, hi);
    var pass := 0;
    while pass < PASSES
      invariant pass <= PASSES
      invariant Spend(signals, lo) > budget >= Spend(signals, hi)
      invariant (hi - lo) * Pow2(pass) == width
      invariant Search(signals, budget, lo, hi, PASSES - pass) == ShadowPrice(signals, budget)
    {
      var mid := 0.5 * (lo + hi);
      OnePass(signals, budget, lo, hi, mid, pass);
      if Sum(Fills(signals, mid)) > budget {
        lo := mid;
      } else {
        hi := mid;
      }
      pass := pass + 1;
    }
    nu := hi;
    c := Fills(signals, hi);
    NoPass(signals, budget, lo, hi, hi);
    BracketGap(signals, budget, lo, hi, width);
  }

  /** What one halving does to the search and to the width of the bracket. */
  lemma OnePass(signals: seq<Signal>, budget: real, lo: real, hi: real, mid: real, pass: nat)
    requires Valid(signals) && mid == 0.5 * (lo + hi) && pass < PASSES
    ensures Spend(signals, mid) == Sum(Fills(signals, mid))
    ensures Search(signals, budget, lo, hi, PASSES - pass)
         == if Spend(signals, mid) > budget then Search(signals, budget, mid, hi, PASSES - (pass + 1))
            else Search(signals, budget, lo, mid, PASSES - (pass + 1))
    ensures (hi - mid) * Pow2(pass + 1) == (hi - lo) * Pow2(pass) == (mid - lo) * Pow2(pass + 1)
  {
    hide Fills, Sum;
    Halved(hi, lo, mid, Pow2(pass));
  }

  lemma NoPass(signals: seq<Signal>, budget: real, lo: real, hi: real, nu: real)
    requires Valid(signals)
    ensures Search(signals, budget, lo, hi, 0) == hi && Pow2(0) == 1.0 && Spend(signals, nu) == Sum(Fills(signals, nu))
  {
    hide Fills, Sum;
  }

  lemma BracketGap(signals: seq<Signal>, budget: real, lo: real, hi: real, width: real)
    requires Valid(signals) && Spend(signals, lo) > budget >= Spend(signals, hi)
    requires (hi - lo) * Pow2(PASSES) == width
    ensures budget - Spend(signals, hi) <= width / Pow2(PASSES) * Steepness(signals)
  {
    hide Spend, Steepness, Pow2;
    if hi < lo {
      SpendFalls(signals, hi, lo);
    }
    SpendGap(signals, lo, hi);
    Quotient(hi - lo, Pow2(PASSES), width);
  }

  lemma Halved(hi: real, lo: real, mid: real, p: real)
    requires mid == 0.5 * (lo + hi)
    ensures (hi - mid) * (2.0 * p) == (hi - lo) * p == (mid - lo) * (2.0 * p)
  {}

  lemma Quotient(x: real, p: real, w: real)
    requires p > 0.0 && x * p == w
    ensures x == w / p
  {}

  // ------------------------------------------------------------------------- the bisection bracket

  /** Spending on one signal falls by at most this much per unit of shadow price. */
  function Slope(s: Signal): (r: real)
    requires s.lam > 0.0
    ensures r > 0.0
  {
    1.0 / (2.0 * s.lam)
  }

  lemma FillFalls(s: Signal, lo: real, hi: real)
    requires s.lam > 0.0 && lo <= hi
    ensures 0.0 <= Fill(s, hi) <= Fill(s, lo) <= Fill(s, hi) + (hi - lo) * Slope(s)
  {
    DivMul(s.mu - lo, 2.0 * s.lam);
    DivMul(s.mu - hi, 2.0 * s.lam);
    var q, x, y := Slope(s), (s.mu - lo) / (2.0 * s.lam), (s.mu - hi) / (2.0 * s.lam);
    hide Slope;
    Falling(s.mu, lo, hi, q, x, y);
  }

  lemma Falling(mu: real, lo: real, hi: real, q: real, x: real, y: real)
    requires x == (mu - lo) * q && y == (mu - hi) * q && q > 0.0 && lo <= hi
    ensures x == y + (hi - lo) * q && (hi - lo) * q >= 0.0
  {
    MulMono(q, 0.0, hi - lo);
  }

  lemma SpendGap(signals: seq<Signal>, lo: real, hi: real)
    requires Valid(signals) && lo <= hi
    ensures Spend(signals, lo) <= Spend(signals, hi) + (hi - lo) * Steepness(signals)
  {
    hide Fill, Slope, Sum;
    var slopes := Slopes(signals);
    forall i | 0 <= i < |signals|
      ensures Fills(signals, lo)[i] <= Plus(Fills(signals, hi), Scale(hi - lo, slopes))[i]
    {
      FillFalls(signals[i], lo, hi);
    }
    SumMono(Fills(signals, lo), Plus(Fills(signals, hi), Scale(hi - lo, slopes)));
    SumPlus(Fills(signals, hi), Scale(hi - lo, slopes));
    SumScale(hi - lo, slopes);
  }

  lemma SpendFalls(signals: seq<Signal>, lo: real, hi: real)
    requires Valid(signals) && lo <= hi
    ensures Spend(signals, hi) <= Spend(signals, lo)
  {
    forall i | 0 <= i < |signals| ensures Fills(signals, hi)[i] <= Fills(signals, lo)[i] {
      FillFalls(signals[i], lo, hi);
    }
    SumMono(Fills(signals, hi), Fills(signals, lo));
  }

  lemma HighPriceSpendsNothing(signals: seq<Signal>)
    requires Valid(signals)
    ensures Spend(signals, MaxMu(signals)) == 0.0
  {
    var nu := MaxMu(signals);
    forall i | 0 <= i < |signals| ensures Fills(signals, nu)[i] == 0.0 {
      NoEdge(signals[i], nu);
    }
    ZeroSum(Fills(signals, nu));
  }

  lemma NoEdge(s: Signal, nu: real)
    requires s.lam > 0.0 && s.mu <= nu
    ensures Fill(s, nu) == 0.0
  {
    assert (s.mu - nu) / (2.0 * s.lam) <= 0.0;
  }

  /** One signal alone already spends more than the budget at the starting low price. */
  lemma LowPriceOverspends(signals: seq<Signal>, budget: real)
    requires Valid(signals) && budget >= 0.0
    ensures Spend(signals, LowPrice(signals, budget)) > budget
  {
    var nu := LowPrice(signals, budget);
    var c := Fills(signals, nu);
    OneOverspends(signals[0], MaxLam(signals), MinMu(signals), budget, nu);
    assert c[0] == Fill(signals[0], nu) > budget;
    assert forall i :: 0 <= i < |c| ==> c[i] >= 0.0;
    hide *;
    PartOfSum(c, 0);
  }

  lemma OneOverspends(s: Signal, lam: real, mu: real, budget: real, nu: real)
    requires 0.0 < s.lam <= lam && mu <= s.mu && budget >= 0.0 && nu == mu - (2.0 * lam) * budget - 1.0
    ensures Fill(s, nu) > budget
  {
    var d, e := 2.0 * s.lam, 2.0 * lam;
    MulMono(budget, d, e);
    assert nu == mu - e * budget - 1.0;
    assert s.mu - nu >= d * budget + 1.0;
    hide *;
    Exceeds(s.mu - nu, d, budget);
  }

  lemma Exceeds(x: real, d: real, budget: real)
    requires d > 0.0 && x >= d * budget + 1.0
    ensures x / d > budget
  {
    var y := x / d;
    assert y * d == x;
    if y <= budget {
      MulMono(d, y, budget);
      assert false;
    }
  }

  // ------------------------------------------------------------------------------- optimality

  /** At shadow price nu no amount x of one signal beats its fill by more than nu per unit. */
  lemma FillIsBest(s: Signal, nu: real, x: real)
    requires s.lam > 0.0 && x >= 0.0
    ensures Earn(s, x) <= Earn(s, Fill(s, nu)) + nu * (x - Fill(s, nu))
  {
    var c := Fill(s, nu);
    if s.mu <= nu {
      NoEdge(s, nu);
      MulMono(x, s.mu, nu);
      assert s.lam * (x * x) >= 0.0;
    } else {
      var y := (s.mu - nu) / (2.0 * s.lam);
      assert y * (2.0 * s.lam) == s.mu - nu;
      assert y > 0.0;
      BestResponse(s.mu, s.lam, nu, c, x);
    }
  }

  lemma BestResponse(mu: real, lam: real, nu: real, c: real, x: real)
    requires lam > 0.0 && c * (2.0 * lam) == mu - nu
    ensures mu * x - lam * (x * x) <= mu * c - lam * (c * c) + nu * (x - c)
  {
    var lc, d := lam * c, x - c;
    assert lam * (d * d) >= 0.0;
    assert mu == nu + 2.0 * lc;
    Square(lam, c, x, d, lc);
    assert mu * d == nu * d + 2.0 * (lc * d) by { MulSum(d, mu, nu, 2.0 * lc); }
    MulSum(mu, x, c, d);
  }

  lemma Square(lam: real, c: real, x: real, d: real, lc: real)
    requires d == x - c && lc == lam * c
    ensures lam * (x * x) == lam * (c * c) + 2.0 * (lc * d) + lam * (d * d)
  {
    assert x * x == c * c + 2.0 * (c * d) + d * d;
    MulSum(lam, x * x, c * c + 2.0 * (c * d), d * d);
    MulSum(lam, c * c + 2.0 * (c * d), c * c, 2.0 * (c * d));
    assert lam * (2.0 * (c * d)) == 2.0 * (lc * d);
  }

  /**
   The water-filling optimality condition: every non-negative alternative earns at most the allocation's
   profit, plus the shadow price on the capital by which it differs. The allocation is therefore the best
   way to deploy exactly what it deploys.
   */
  lemma WaterFillingIsOptimal(signals: seq<Signal>, nu: real, alt: seq<real>)
    requires Valid(signals) && |alt| == |signals| && forall i :: 0 <= i < |alt| ==> alt[i] >= 0.0
    ensures var c := Fills(signals, nu); Profit(signals, alt) <= Profit(signals, c) + nu * (Sum(alt) - Sum(c))
    ensures var c := Fills(signals, nu); Sum(alt) == Sum(c) ==> Profit(signals, alt) <= Profit(signals, c)
  {
    hide Earn, Fill, Fills, Earnings, Plus, Scale, Sum;
    var c := Fills(signals, nu);
    var moved := Plus(alt, Scale(-1.0, c));
    EveryFillIsBest(signals, nu, alt, moved);
    SumMono(Earnings(signals, alt), Plus(Earnings(signals, c), Scale(nu, moved)));
    SumPlus(Earnings(signals, c), Scale(nu, moved));
    SumScale(nu, moved);
    SumPlus(alt, Scale(-1.0, c));
    SumScale(-1.0, c);
    MulEq(nu, Sum(moved), Sum(alt) - Sum(c));
  }

  lemma EveryFillIsBest(signals: seq<Signal>, nu: real, alt: seq<real>, moved: seq<real>)
    requires Valid(signals) && |alt| == |signals| && forall i :: 0 <= i < |alt| ==> alt[i] >= 0.0
    requires moved == Plus(alt, Scale(-1.0, Fills(signals, nu)))
    ensures var c := Fills(signals, nu);
      forall i :: 0 <= i < |alt| ==> Earnings(signals, alt)[i] <= Plus(Earnings(signals, c), Scale(nu, moved))[i]
  {
    hide Earn, Fill;
    var c := Fills(signals, nu);
    forall i | 0 <= i < |alt|
      ensures Earnings(signals, alt)[i] <= Plus(Earnings(signals, c), Scale(nu, moved))[i]
    {
      FillIsBest(signals[i], nu, alt[i]);
      assert moved[i] == alt[i] - c[i];
    }
  }

  /** Against every way of spending the whole budget, the allocation loses at most the shadow price on the
      capital the bisection left unspent. */
  lemma NearOptimalForBudget(signals: seq<Signal>, nu: real, budget: real, alt: seq<real>, unspent: real)
    requires Valid(signals) && |alt| == |signals| && forall i :: 0 <= i < |alt| ==> alt[i] >= 0.0
    requires Sum(alt) == budget && 0.0 <= budget - Spend(signals, nu) <= unspent
    ensures Profit(signals, alt) <= Profit(signals, Fills(signals, nu)) + Max(nu, 0.0) * unspent
  {
    hide Profit, Fills, Valid;
    WaterFillingIsOptimal(signals, nu, alt);
    var short := budget - Spend(signals, nu);
    MulMono(short, nu, Max(nu, 0.0));
    MulMono(Max(nu, 0.0), short, unspent);
  }

  // ---------------------------------------------------------------------------------- crowding

  /** Each of k players' capital in the symmetric equilibrium of one signal. */
  function Crowd(s: Signal, k: nat): real
    requires s.lam > 0.0
  {
    s.mu / (s.lam * (k + 1) as real)
  }

  /** A player's profit on x when the others together deploy `others`. */
  function Payoff(s: Signal, x: real, others: real): real {
    x * (s.mu - s.lam * (x + others))
  }

  lemma CrowdEquation(s: Signal, k: nat)
    requires s.lam > 0.0
    ensures s.lam * (Crowd(s, k) * (k + 1) as real) == s.mu
  {
    var q := s.lam * (k + 1) as real;
    assert q > 0.0;
    assert s.mu / q * q == s.mu;
    assert Crowd(s, k) * q == s.lam * (Crowd(s, k) * (k + 1) as real);
  }

  /** No player gains by deploying any other amount: the reported point is an equilibrium. */
  lemma CrowdIsNash(s: Signal, k: nat, x: real)
    requires s.lam > 0.0 && k > 0
    ensures var c := Crowd(s, k);
      Payoff(s, x, (k - 1) as real * c) <= Payoff(s, c, (k - 1) as real * c)
  {
    CrowdEquation(s, k);
    var c := Crowd(s, k);
    var others := (k - 1) as real * c;
    assert c * (k + 1) as real == others + 2.0 * c;
    Deviation(s.mu, s.lam, c, others, x);
  }

  lemma Deviation(mu: real, lam: real, c: real, others: real, x: real)
    requires lam > 0.0 && lam * (others + 2.0 * c) == mu
    ensures x * (mu - lam * (x + others)) <= c * (mu - lam * (c + others))
  {
    assert c * (mu - lam * (c + others)) - x * (mu - lam * (x + others)) == lam * ((c - x) * (c - x)) by {
      assert mu == lam * others + 2.0 * (lam * c);
    }
    assert (c - x) * (c - x) >= 0.0;
  }

  /** What all k players earn together. */
  function Aggregate(s: Signal, k: nat): real
    requires s.lam > 0.0
  {
    k as real * Payoff(s, Crowd(s, k), k as real * Crowd(s, k) - Crowd(s, k))
  }

  /** The tragedy of the commons: one more player puts more capital in and takes less profit out. */
  lemma CrowdingDestroysProfit(s: Signal, k: nat)
    requires s.lam > 0.0 && s.mu > 0.0 && k > 0
    ensures k as real * Crowd(s, k) < (k + 1) as real * Crowd(s, k + 1)
    ensures Aggregate(s, k + 1) < Aggregate(s, k)
  {
    CrowdShare(s, k);
    CrowdShare(s, k + 1);
    var a, b := 1.0 / (k + 1) as real, 1.0 / (k + 2) as real;
    Reciprocals(k);
    var unit := s.mu * s.mu / s.lam;
    assert unit > 0.0;
    assert (s.mu / s.lam) > 0.0;
    MulStrict(s.mu / s.lam, 1.0 - a, 1.0 - b);
    assert b * (1.0 - b) < a * (1.0 - a) by { Parabola(b, a); }
    MulStrict(unit, b * (1.0 - b), a * (1.0 - a));
  }

  lemma MulStrict(k: real, x: real, y: real)
    requires k > 0.0 && x < y
    ensures k * x < k * y
  {}

  lemma Reciprocals(k: nat)
    requires k > 0
    ensures 0.0 < 1.0 / (k + 2) as real < 1.0 / (k + 1) as real <= 0.5
  {
    var p, q := (k + 1) as real, (k + 2) as real;
    var a, b := 1.0 / p, 1.0 / q;
    Reciprocal(a, b, p, q);
  }

  lemma Reciprocal(a: real, b: real, p: real, q: real)
    requires a * p == 1.0 && b * q == 1.0 && q == p + 1.0 && p >= 2.0
    ensures 0.0 < b < a <= 0.5
  {
    Sign(b, q);
    assert (a - b) * p == b;
    Sign(a - b, p);
    assert (0.5 - a) * p == 0.5 * p - 1.0;
    Sign(0.5 - a, p);
  }

  lemma Sign(x: real, p: real)
    requires p > 0.0
    ensures x * p > 0.0 ==> x > 0.0
    ensures x * p >= 0.0 ==> x >= 0.0
  {}

  lemma Parabola(b: real, a: real)
    requires 0.0 < b < a <= 0.5
    ensures b * (1.0 - b) < a * (1.0 - a)
  {
    assert a * (1.0 - a) - b * (1.0 - b) == (a - b) * (1.0 - a - b);
    MulStrict(a - b, 0.0, 1.0 - a - b);
  }

  /** Total capital and profit as the share left for each player. */
  lemma CrowdShare(s: Signal, k: nat)
    requires s.lam > 0.0
    ensures var share := 1.0 / (k + 1) as real;
      && k as real * Crowd(s, k) == s.mu / s.lam * (1.0 - share)
      && Aggregate(s, k) == s.mu * s.mu / s.lam * (share * (1.0 - share))
  {
    var share, full := 1.0 / (k + 1) as real, s.mu / s.lam;
    DivMul(1.0, (k + 1) as real);
    DivMul(s.mu, s.lam);
    assert k as real * share == 1.0 - share;
    CrowdEquation(s, k);
    CrowdIsShare(s.mu, s.lam, Crowd(s, k), (k + 1) as real, full, share);
    ShareAlgebra(s.mu, s.lam, full, share, k as real, Crowd(s, k));
    DivMul(s.mu * s.mu, s.lam);
    assert s.mu * s.mu / s.lam == s.mu * full;
  }

  lemma CrowdIsShare(mu: real, lam: real, c: real, q: real, full: real, share: real)
    requires lam > 0.0 && q > 0.0 && lam * (c * q) == mu && full * lam == mu && share * q == 1.0
    ensures c == full * share
  {
    assert lam * (c * q - full) == 0.0;
    assert c * q == full;
    assert full * share == c * (q * share);
  }

  lemma ShareAlgebra(mu: real, lam: real, full: real, share: real, k: real, c: real)
    requires lam > 0.0 && full * lam == mu && c == full * share && k * share == 1.0 - share
    ensures k * c == full * (1.0 - share)
    ensures k * (c * (mu - lam * (c + (k * c - c)))) == mu * full * (share * (1.0 - share))
  {
    assert k * c == full * (k * share);
    assert lam * (k * c) == mu * (1.0 - share);
    assert mu - lam * (k * c) == mu * share;
    assert k * (c * (mu * share)) == (k * c) * (mu * share);
  }

  // -------------------------------------------------------------------------- when the budget is met

  lemma {:induction false} SearchUnderspends(signals: seq<Signal>, budget: real, lo: real, hi: real, passes: nat)
    requires Valid(signals) && Spend(signals, hi) <= budget
    ensures Spend(signals, Search(signals, budget, lo, hi, passes)) <= budget
    decreases passes
  {
    hide Spend;
    if passes > 0 {
      var mid := 0.5 * (lo + hi);
      if Spend(signals, mid) > budget {
        SearchUnderspends(signals, budget, mid, hi, passes - 1);
      } else {
        SearchUnderspends(signals, budget, lo, mid, passes - 1);
      }
    }
  }

  function IntPow2(k: nat): (p: nat)
    ensures p % 3 != 0
  {
    if k == 0 then 1 else 2 * IntPow2(k - 1)
  }

  lemma {:induction false} Pow2IsInt(k: nat)
    ensures Pow2(k) == IntPow2(k) as real
  {
    if k > 0 {
      Pow2IsInt(k - 1);
    }
  }

  /** x is the j-th of the 2^k points that divide the bracket (lo, hi] evenly. */
  ghost predicate GridPoint(lo: real, hi: real, k: nat, x: real, j: int) {
    lo < x <= hi && (x - lo) * Pow2(k) == (hi - lo) * j as real
  }

  /** Some point of the grid is a shadow price that spends the budget exactly. */
  ghost predicate GridMeets(signals: seq<Signal>, budget: real, lo: real, hi: real, k: nat)
    requires Valid(signals)
  {
    exists x: real, j: int :: GridPoint(lo, hi, k, x, j) && Spend(signals, x) == budget
  }

  lemma CoarsestGrid(lo: real, hi: real, x: real, j: int)
    requires lo < hi
    ensures GridPoint(lo, hi, 0, hi, 1)
    ensures GridPoint(lo, hi, 0, x, j) ==> x == hi
  {
    if GridPoint(lo, hi, 0, x, j) {
      OnePart(hi - lo, x - lo, j);
    }
  }

  lemma OnePart(w: real, d: real, j: int)
    requires 0.0 < d <= w && d == w * j as real
    ensures j == 1
  {
    AtMostOne(w, d, j as real);
  }

  lemma AtMostOne(w: real, d: real, t: real)
    requires 0.0 < d <= w && d == w * t
    ensures 0.0 < t <= 1.0
  {
    assert t == d / w;
  }

  /** The points of the upper half are points of the whole. */
  lemma UpperHalf(lo: real, hi: real, mid: real, k: nat, x: real, j: int)
    requires mid == 0.5 * (lo + hi) && mid < x && lo < hi
    ensures GridPoint(lo, hi, k + 1, x, j + IntPow2(k)) <==> GridPoint(mid, hi, k, x, j)
  {
    Pow2IsInt(k);
    Upper(lo, hi, mid, x, Pow2(k), j as real);
  }

  lemma Upper(lo: real, hi: real, mid: real, x: real, p: real, j: real)
    requires mid == 0.5 * (lo + hi)
    ensures (x - lo) * (2.0 * p) == (hi - lo) * (j + p) <==> (x - mid) * p == (hi - mid) * j
  {
    assert hi - lo == 2.0 * (hi - mid) && x - lo == (x - mid) + (hi - mid);
    assert (x - lo) * (2.0 * p) == 2.0 * ((x - mid) * p) + 2.0 * ((hi - mid) * p);
    assert (hi - lo) * (j + p) == 2.0 * ((hi - mid) * j) + 2.0 * ((hi - mid) * p);
  }

  /** So are those of the lower half. */
  lemma LowerHalf(lo: real, hi: real, mid: real, k: nat, x: real, j: int)
    requires mid == 0.5 * (lo + hi) && x <= mid && lo < hi
    ensures GridPoint(lo, hi, k + 1, x, j) <==> GridPoint(lo, mid, k, x, j)
  {
    Lower(lo, hi, mid, x, Pow2(k), j as real);
  }

  lemma Lower(lo: real, hi: real, mid: real, x: real, p: real, j: real)
    requires mid == 0.5 * (lo + hi)
    ensures (x - lo) * (2.0 * p) == (hi - lo) * j <==> (x - lo) * p == (mid - lo) * j
  {
    assert hi - lo == 2.0 * (mid - lo);
    assert (x - lo) * (2.0 * p) == 2.0 * ((x - lo) * p) && (hi - lo) * j == 2.0 * ((mid - lo) * j);
  }

  lemma MidIsAPoint(lo: real, mid: real, k: nat)
    requires lo < mid
    ensures GridPoint(lo, mid, k, mid, IntPow2(k))
  {
    Pow2IsInt(k);
  }

  /** Where the middle overspends, only the upper half can meet the budget. */
  lemma MeetsAbove(signals: seq<Signal>, budget: real, lo: real, hi: real, mid: real, k: nat)
    requires Valid(signals) && lo < hi && mid == 0.5 * (lo + hi) && Spend(signals, mid) > budget
    ensures GridMeets(signals, budget, lo, hi, k + 1) <==> GridMeets(signals, budget, mid, hi, k)
  {
    hide Spend, GridPoint;
    if GridMeets(signals, budget, lo, hi, k + 1) {
      var x, j :| GridPoint(lo, hi, k + 1, x, j) && Spend(signals, x) == budget;
      if x <= mid {
        SpendFalls(signals, x, mid);
      }
      UpperHalf(lo, hi, mid, k, x, j - IntPow2(k));
    }
    if GridMeets(signals, budget, mid, hi, k) {
      var x, j :| GridPoint(mid, hi, k, x, j) && Spend(signals, x) == budget;
      InBracket(mid, hi, k, x, j);
      UpperHalf(lo, hi, mid, k, x, j);
    }
  }

  lemma InBracket(lo: real, hi: real, k: nat, x: real, j: int)
    requires GridPoint(lo, hi, k, x, j)
    ensures lo < x <= hi
  {}

  /** Where it does not, the lower half can, if need be by the middle itself. */
  lemma MeetsBelow(signals: seq<Signal>, budget: real, lo: real, hi: real, mid: real, k: nat)
    requires Valid(signals) && lo < hi && mid == 0.5 * (lo + hi) && Spend(signals, mid) <= budget
    ensures GridMeets(signals, budget, lo, hi, k + 1) <==> GridMeets(signals, budget, lo, mid, k)
  {
    hide Spend, GridPoint;
    if GridMeets(signals, budget, lo, hi, k + 1) {
      var x, j :| GridPoint(lo, hi, k + 1, x, j) && Spend(signals, x) == budget;
      if x <= mid {
        LowerHalf(lo, hi, mid, k, x, j);
      } else {
        SpendFalls(signals, mid, x);
        MidIsAPoint(lo, mid, k);
        assert Spend(signals, mid) == budget;
      }
    }
    if GridMeets(signals, budget, lo, mid, k) {
      var x, j :| GridPoint(lo, mid, k, x, j) && Spend(signals, x) == budget;
      InBracket(lo, mid, k, x, j);
      LowerHalf(lo, hi, mid, k, x, j);
    }
  }

  /** The search meets the budget exactly when a point of its grid does. */
  lemma {:induction false} SearchMeetsIff(signals: seq<Signal>, budget: real, lo: real, hi: real, k: nat)
    requires Valid(signals) && lo < hi
    ensures Spend(signals, Search(signals, budget, lo, hi, k)) == budget <==> GridMeets(signals, budget, lo, hi, k)
    decreases k
  {
    hide Spend, GridPoint;
    if k == 0 {
      CoarsestGrid(lo, hi, hi, 1);
      if GridMeets(signals, budget, lo, hi, 0) {
        var x, j :| GridPoint(lo, hi, 0, x, j) && Spend(signals, x) == budget;
        CoarsestGrid(lo, hi, x, j);
      }
    } else {
      hide GridMeets;
      var mid := 0.5 * (lo + hi);
      if Spend(signals, mid) > budget {
        MeetsAbove(signals, budget, lo, hi, mid, k - 1);
        SearchMeetsIff(signals, budget, mid, hi, k - 1);
      } else {
        MeetsBelow(signals, budget, lo, hi, mid, k - 1);
        SearchMeetsIff(signals, budget, lo, mid, k - 1);
      }
    }
  }

  lemma BracketIsOpen(signals: seq<Signal>, budget: real)
    requires Valid(signals) && budget >= 0.0
    ensures LowPrice(signals, budget) < MaxMu(signals)
  {
    hide LowPrice, MaxMu, Spend;
    LowPriceOverspends(signals, budget);
    HighPriceSpendsNothing(signals);
    if MaxMu(signals) <= LowPrice(signals, budget) {
      SpendFalls(signals, MaxMu(signals), LowPrice(signals, budget));
    }
  }

  /**
   The budget is spent to the last cent exactly when some shadow price that spends it is one of the 2^200 points
   that the halvings can reach; otherwise some of it is left.
   */
  lemma BudgetIsMetIff(signals: seq<Signal>, budget: real)
    requires Valid(signals) && budget >= 0.0
    ensures var spent := Sum(Fills(signals, ShadowPrice(signals, budget)));
      && spent <= budget
      && (spent == budget <==> GridMeets(signals, budget, LowPrice(signals, budget), MaxMu(signals), PASSES))
  {
    hide LowPrice, MaxMu, Spend, Search, GridMeets, Fills;
    var lo, hi := LowPrice(signals, budget), MaxMu(signals);
    BracketIsOpen(signals, budget);
    HighPriceSpendsNothing(signals);
    SearchUnderspends(signals, budget, lo, hi, PASSES);
    SearchMeetsIff(signals, budget, lo, hi, PASSES);
    NoPass(signals, budget, lo, hi, ShadowPrice(signals, budget));
  }

  /** One signal whose only shadow price for a budget of 2 is 1, a third of the way up its bracket [0, 3]. */
  const ONE_SIGNAL := [Signal(3.0, 0.5)]

  lemma OneSpend(nu: real)
    ensures Spend(ONE_SIGNAL, nu) == Max(3.0 - nu, 0.0)
  {
    assert Fills(ONE_SIGNAL, nu) == [] + [Fill(ONE_SIGNAL[0], nu)];
    SumSnoc([], Fill(ONE_SIGNAL[0], nu));
  }

  lemma NotAThird(p: nat, n: int)
    requires p % 3 != 0
    ensures p as real != 3.0 * n as real
  {
    assert p != 3 * n;
    assert (3 * n) as real == 3.0 * n as real;
  }

  lemma ThirdIsOffGrid(k: nat, n: int)
    ensures !GridPoint(0.0, 3.0, k, 1.0, n)
  {
    Pow2IsInt(k);
    NotAThird(IntPow2(k), n);
  }

  lemma OneBracket()
    ensures LowPrice(ONE_SIGNAL, 2.0) == 0.0 && MaxMu(ONE_SIGNAL) == 3.0
  {}

  /** The budget is not always met: here some of it stays unspent, since no halving lands on the exact price. */
  lemma BudgetIsNotMet()
    ensures Sum(Fills(ONE_SIGNAL, ShadowPrice(ONE_SIGNAL, 2.0))) < 2.0
  {
    OneBracket();
    hide GridPoint, ShadowPrice, LowPrice, MaxMu, Fills, Sum, Spend;
    BudgetIsMetIff(ONE_SIGNAL, 2.0);
    forall x: real, j: int ensures !(GridPoint(0.0, 3.0, PASSES, x, j) && Spend(ONE_SIGNAL, x) == 2.0) {
      OneSpend(x);
      ThirdIsOffGrid(PASSES, j);
    }
  }
}
