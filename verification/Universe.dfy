/**
 Price histories and point-in-time membership (research/mds/universe.py): which symbols a backtest may hold as
 of each date.
 */
module Universe {
  import opened Reals
  import opened Execution

  /** One date: every symbol's price, None where it has none, and its liquidity. */
  datatype Day = Day(prices: seq<Option<real>>, liq: seq<Quote>)

  type History = seq<Day>

  predicate Shaped(h: History, n: nat) {
    forall i :: 0 <= i < |h| ==> ShapedDay(h[i], n)
  }

  predicate ShapedDay(d: Day, n: nat) {
    |d.prices| == n == |d.liq| && forall s :: 0 <= s < n && d.prices[s].Some? ==> d.prices[s].value > 0.0
  }

  predicate Priced(h: History, i: int, s: nat) {
    0 <= i < |h| && s < |h[i].prices| && h[i].prices[s].Some?
  }

  /** Listed on row i: it has a price on that row or before, and on that row or later. */
  predicate Listed(h: History, s: nat, i: nat) {
    && (exists a :: 0 <= a <= i && Priced(h, a, s))
    && (exists b :: i <= b < |h| && Priced(h, b, s))
  }

  /** The membership panel, filled column by column between each symbol's first and last price. */
  method MembershipMask(h: History, n: nat) returns (mask: array2<bool>)
    ensures mask.Length0 == |h| && mask.Length1 == n
    ensures forall i, s :: 0 <= i < |h| && 0 <= s < n ==> mask[i, s] == Listed(h, s, i)
  {
    mask := new bool[|h|, n]((_, _) => false);
    for s := 0 to n
      invariant forall i, u :: 0 <= i < |h| && 0 <= u < s ==> mask[i, u] == Listed(h, u, i)
      invariant forall i, u :: 0 <= i < |h| && s <= u < n ==> !mask[i, u]
    {
      var first := 0;
      while first < |h| && !Priced(h, first, s)
        invariant first <= |h| && forall a :: 0 <= a < first ==> !Priced(h, a, s)
      {
        first := first + 1;
      }
      var last := |h|;
      while first < last && !Priced(h, last - 1, s)
        invariant first <= last <= |h| && forall b :: last <= b < |h| ==> !Priced(h, b, s)
      {
        last := last - 1;
      }
      for i := first to last
        invariant forall j, u :: 0 <= j < |h| && 0 <= u < s ==> mask[j, u] == Listed(h, u, j)
        invariant forall j, u :: 0 <= j < |h| && s < u < n ==> !mask[j, u]
        invariant forall j :: 0 <= j < |h| ==> mask[j, s] == (first <= j < i)
      {
        mask[i, s] := true;
      }
      assert forall i :: 0 <= i < |h| ==> Listed(h, s, i) == (first <= i < last);
    }
  }

  /** A symbol whose prices have no hole between its first and its last. */
  predicate GapFree(h: History, s: nat) {
    forall i :: 0 <= i < |h| && Listed(h, s, i) ==> Priced(h, i, s)
  }

  /** The mask says no more than the row itself exactly when the symbol has no interior hole. */
  lemma MaskIsTheRowIffGapFree(h: History, s: nat)
    ensures GapFree(h, s) <==> forall i :: 0 <= i < |h| ==> Listed(h, s, i) == Priced(h, i, s)
  {
    forall i | 0 <= i < |h| && Priced(h, i, s) ensures Listed(h, s, i) {}
  }

  /**
   What the mask says of the last known row is settled by the rows known so far exactly when the symbol is
   priced on that row or was never priced. Otherwise the mask looks ahead: whether a symbol that has gone
   quiet still counts as listed depends on whether a price ever comes back.
   */
  lemma MaskIsSettledIff(known: History, s: nat, n: nat)
    requires |known| > 0 && s < n && Shaped(known, n)
    ensures (forall later, other | Shaped(later, n) && Shaped(other, n) ::
               Listed(known + later, s, |known| - 1) == Listed(known + other, s, |known| - 1))
        <==> Priced(known, |known| - 1, s) || forall a :: 0 <= a < |known| ==> !Priced(known, a, s)
  {
    var t := |known| - 1;
    if Priced(known, t, s) {
      forall later ensures Listed(known + later, s, t) {
        assert Priced(known + later, t, s);
      }
    } else if a :| 0 <= a < |known| && Priced(known, a, s) {
      var back := Day(seq(n, _ => Some(1.0)), seq(n, _ => Quote(None, None, None)));
      assert Shaped([back], n) && Shaped([], n);
      assert Priced(known + [back], a, s) && Priced(known + [back], |known|, s);
      assert Listed(known + [back], s, t);
      assert known + [] == known && !Priced(known, t, s);
      assert !Listed(known + [], s, t);
    } else {
      forall later ensures !Listed(known + later, s, t) {
        forall i | 0 <= i <= t ensures !Priced(known + later, i, s) {
          assert !Priced(known, i, s);
        }
      }
    }
  }

  // --------------------------------------------------------------------------- complete histories

  predicate Complete(d: Day) {
    forall s :: 0 <= s < |d.prices| ==> d.prices[s].Some?
  }

  /** The rows on which every symbol is priced. */
  function DropMissing(h: History): (r: History)
    ensures |r| <= |h|
    ensures forall i :: 0 <= i < |r| ==> Complete(r[i]) && r[i] in h
  {
    if |h| == 0 then []
    else
      var before := DropMissing(h[..|h| - 1]);
      if Complete(h[|h| - 1]) then before + [h[|h| - 1]] else before
  }

  /** Rows known so far keep their place however the history goes on. */
  lemma {:induction false} DropMissingIsPrefix(h: History, t: nat)
    requires t <= |h|
    ensures DropMissing(h[..t]) <= DropMissing(h)
  {
    if t == |h| {
      assert h[..t] == h;
    } else {
      assert h[..|h| - 1][..t] == h[..t];
      DropMissingIsPrefix(h[..|h| - 1], t);
    }
  }
}
