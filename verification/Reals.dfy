/** Arithmetic and counting shared by every component: the source's floats are modelled as exact reals. */
module Reals {

  datatype Option<+T> = None | Some(value: T)

  function Min(x: real, y: real): real {
    if x <= y then x else y
  }

  function Max(x: real, y: real): real {
    if x >= y then x else y
  }

  function Abs(x: real): real {
    if x >= 0.0 then x else -x
  }

  /** Restricts x to [lo, hi], as `np.clip` does. */
  function Clip(x: real, lo: real, hi: real): real {
    Min(Max(x, lo), hi)
  }

  function Sum(s: seq<real>): real {
    if |s| == 0 then 0.0 else Sum(s[..|s| - 1]) + s[|s| - 1]
  }

  lemma {:induction false} SumUpdate(s: seq<real>, i: nat, x: real)
    requires i < |s|
    ensures Sum(s[i := x]) == Sum(s) - s[i] + x
  {
    var n := |s| - 1;
    if i == n {
      assert s[i := x][..n] == s[..n];
    } else {
      assert s[i := x][..n] == s[..n][i := x];
      SumUpdate(s[..n], i, x);
    }
  }

  lemma {:induction false} SumSnoc(s: seq<real>, x: real)
    ensures Sum(s + [x]) == Sum(s) + x
  {
    assert (s + [x])[..|s|] == s;
  }

  lemma {:induction false} SumAppend(s: seq<real>, t: seq<real>)
    ensures Sum(s + t) == Sum(s) + Sum(t)
  {
    if |t| == 0 {
      assert s + t == s;
    } else {
      var n := |t| - 1;
      assert (s + t)[..|s + t| - 1] == s + t[..n];
      SumAppend(s, t[..n]);
    }
  }

  // Products of two variables are expensive for the solver, so the few facts needed are named.

  lemma MulMono(k: real, x: real, y: real)
    requires 0.0 <= k && x <= y
    ensures k * x <= k * y
  {}

  lemma MulAdd(k: real, x: real, y: real)
    ensures k * (x + y) == k * x + k * y
    ensures k * (x - y) == k * x - k * y
  {}

  lemma MulSum(k: real, s: real, x: real, y: real)
    requires s == x + y
    ensures k * s == k * x + k * y
  {}

  lemma MulEq(k: real, x: real, y: real)
    requires x == y
    ensures k * x == k * y
  {}

  lemma DivMul(x: real, d: real)
    requires d != 0.0
    ensures x / d == x * (1.0 / d)
    ensures x / d * d == x
  {}

  /** Scaling and adding sequences pointwise. */
  function Scale(k: real, s: seq<real>): (r: seq<real>)
    ensures |r| == |s|
  {
    seq(|s|, i requires 0 <= i < |s| => k * s[i])
  }

  function Plus(s: seq<real>, t: seq<real>): (r: seq<real>)
    requires |s| == |t|
    ensures |r| == |s|
  {
    seq(|s|, i requires 0 <= i < |s| => s[i] + t[i])
  }

  function AbsAll(s: seq<real>): (r: seq<real>)
    ensures |r| == |s|
  {
    seq(|s|, i requires 0 <= i < |s| => Abs(s[i]))
  }

  lemma {:induction false} SumScale(k: real, s: seq<real>)
    ensures Sum(Scale(k, s)) == k * Sum(s)
  {
    if |s| > 0 {
      var n := |s| - 1;
      forall i | 0 <= i < n ensures Scale(k, s)[..n][i] == Scale(k, s[..n])[i] {
        assert s[..n][i] == s[i];
      }
      assert Scale(k, s)[..n] == Scale(k, s[..n]);
      SumScale(k, s[..n]);
      MulSum(k, Sum(s), Sum(s[..n]), s[n]);
    }
  }

  lemma {:induction false} SumPlus(s: seq<real>, t: seq<real>)
    requires |s| == |t|
    ensures Sum(Plus(s, t)) == Sum(s) + Sum(t)
  {
    if |s| > 0 {
      var n := |s| - 1;
      assert Plus(s, t)[..n] == Plus(s[..n], t[..n]);
      SumPlus(s[..n], t[..n]);
    }
  }

  /** Pointwise order carries over to sums. */
  lemma {:induction false} SumMono(s: seq<real>, t: seq<real>)
    requires |s| == |t|
    requires forall i :: 0 <= i < |s| ==> s[i] <= t[i]
    ensures Sum(s) <= Sum(t)
  {
    if |s| > 0 {
      SumMono(s[..|s| - 1], t[..|t| - 1]);
    }
  }

  lemma {:induction false} ZeroSum(c: seq<real>)
    requires forall i :: 0 <= i < |c| ==> c[i] == 0.0
    ensures Sum(c) == 0.0
  {
    if |c| > 0 {
      ZeroSum(c[..|c| - 1]);
    }
  }

  /** A sum with a single term that is not zero. */
  lemma {:induction false} SumOfOne(s: seq<real>, k: nat)
    requires k < |s| && forall i :: 0 <= i < |s| && i != k ==> s[i] == 0.0
    ensures Sum(s) == s[k]
  {
    var n := |s| - 1;
    if k == n {
      ZeroSum(s[..n]);
    } else {
      SumOfOne(s[..n], k);
    }
  }

  lemma {:induction false} SumNotNegative(s: seq<real>)
    requires forall i :: 0 <= i < |s| ==> s[i] >= 0.0
    ensures Sum(s) >= 0.0
  {
    if |s| > 0 {
      SumNotNegative(s[..|s| - 1]);
    }
  }

  lemma {:induction false} PartOfSum(s: seq<real>, k: nat)
    requires k < |s| && forall i :: 0 <= i < |s| ==> s[i] >= 0.0
    ensures s[k] <= Sum(s)
  {
    if k < |s| - 1 {
      PartOfSum(s[..|s| - 1], k);
    } else {
      SumNotNegative(s[..|s| - 1]);
    }
  }

  /** Gross exposure. */
  function Gross(w: seq<real>): real {
    Sum(AbsAll(w))
  }

  lemma NotNegativeOver(x: real, d: real)
    requires x >= 0.0 && d > 0.0
    ensures x / d >= 0.0
  {}

  lemma AbsProduct(k: real, x: real)
    requires k >= 0.0
    ensures Abs(k * x) == k * Abs(x)
  {
    if x >= 0.0 {
      MulMono(k, 0.0, x);
    } else {
      MulMono(k, x, 0.0);
    }
  }

  lemma AbsScale(k: real, w: seq<real>)
    requires k >= 0.0
    ensures AbsAll(Scale(k, w)) == Scale(k, AbsAll(w))
  {
    forall i | 0 <= i < |w| ensures AbsAll(Scale(k, w))[i] == Scale(k, AbsAll(w))[i] {
      AbsProduct(k, w[i]);
    }
  }

  lemma GrossScale(k: real, w: seq<real>)
    requires k >= 0.0
    ensures Gross(Scale(k, w)) == k * Gross(w)
  {
    hide Scale, AbsAll, Sum;
    AbsScale(k, w);
    SumScale(k, AbsAll(w));
  }

  lemma SubsetSize<T>(a: set<T>, b: set<T>)
    requires a <= b
    ensures |a| <= |b|
  {
    assert b == a + (b - a);
  }
}
