/**
 The trailing sums of a quarter series (research/mds/edgar.py:201-212) in plain terms: one for each run of four
 consecutive quarters about three months apart, worth their sum and known once the last of them is filed.
 */
module TrailingSums {
  import opened Reals
  import opened PointInTime
  import opened FlowLookAhead

  /** A figure over so many days. */
  ghost predicate Covers(o: Obs, least: int, most: int) {
    o.start.Some? && least <= o.end - o.start.value <= most
  }

  /** The figure kept for a period end, and its first filing: none was filed before it. Quarters are 80 to 100 days. */
  lemma {:induction false} FirstFiledIs(obs: seq<Obs>, end: int, flow: bool)
    ensures var first := FirstFiled(obs, end, flow);
      match first
      case None => forall o :: o in obs && o.end == end ==> flow && !Covers(o, 80, 100)
      case Some(f) =>
        && f in obs && f.end == end && (flow ==> Covers(f, 80, 100))
        && (forall o :: o in obs && o.end == end && (flow ==> Covers(o, 80, 100)) ==> f.filed <= o.filed)
  {
    if |obs| > 0 {
      FirstFiledIs(obs[..|obs| - 1], end, flow);
      assert obs == obs[..|obs| - 1] + [obs[|obs| - 1]];
    }
  }

  lemma {:induction false} InsertHolds(o: Obs, s: seq<Obs>)
    ensures forall x :: x in Insert(o, s) <==> x == o || x in s
  {
    if |s| > 0 && s[|s| - 1].filed > o.filed {
      InsertHolds(o, s[..|s| - 1]);
      assert s == s[..|s| - 1] + [s[|s| - 1]];
    }
  }

  lemma {:induction false} SortingHolds(obs: seq<Obs>)
    ensures forall x :: x in ByFiled(obs) <==> x in obs
  {
    if |obs| > 0 {
      SortingHolds(obs[..|obs| - 1]);
      InsertHolds(obs[|obs| - 1], ByFiled(obs[..|obs| - 1]));
      assert obs == obs[..|obs| - 1] + [obs[|obs| - 1]];
    }
  }

  lemma {:induction false} AnnualsHold(s: seq<Obs>)
    ensures forall o :: o in Annuals(s) <==> o in s && Covers(o, 350, 380)
  {
    if |s| > 0 {
      AnnualsHold(s[..|s| - 1]);
      assert s == s[..|s| - 1] + [s[|s| - 1]];
    }
  }

  /** Every figure over 350 to 380 days, and nothing else, is a point of its own, stamped with its own filing. */
  lemma AnnualPointIff(obs: seq<Obs>, p: Point)
    ensures p in AnnualPoints(Annuals(ByFiled(obs))) <==>
              exists o :: o in obs && Covers(o, 350, 380) && p == Point(o.filed, o.end, o.val)
  {
    hide ByFiled, Annuals, Covers;
    var annuals := Annuals(ByFiled(obs));
    SortingHolds(obs);
    AnnualsHold(ByFiled(obs));
    if o :| o in obs && Covers(o, 350, 380) && p == Point(o.filed, o.end, o.val) {
      assert o in annuals;
      var i :| 0 <= i < |annuals| && annuals[i] == o;
      assert AnnualPoints(annuals)[i] == p;
    }
    if p in AnnualPoints(annuals) {
      var i :| 0 <= i < |annuals| && AnnualPoints(annuals)[i] == p;
      assert annuals[i] in annuals;
    }
  }

  /** Consecutive quarters of the series, each 60 to 130 days after the one before. */
  ghost predicate IsYear(q: Series, a: int, b: int, c: int, d: int) {
    && a in q && b in q && c in q && d in q
    && 60 <= b - a <= 130 && 60 <= c - b <= 130 && 60 <= d - c <= 130
    && forall e :: e in q && a <= e <= d ==> e == a || e == b || e == c || e == d
  }

  /** The point sums the four quarters and is stamped with the last filing among them. */
  ghost predicate SumsYear(q: Series, a: int, b: int, c: int, d: int, p: Point) {
    && a in q && b in q && c in q && d in q
    && p.end == d && p.val == q[a].val + q[b].val + q[c].val + q[d].val
    && q[a].filed <= p.filed && q[b].filed <= p.filed && q[c].filed <= p.filed && q[d].filed <= p.filed
    && (p.filed == q[a].filed || p.filed == q[b].filed || p.filed == q[c].filed || p.filed == q[d].filed)
  }

  lemma FourTotal(q: Series, w: seq<int>)
    requires |w| == 4 && forall i :: 0 <= i < 4 ==> w[i] in q
    ensures Total(q, w) == q[w[0]].val + q[w[1]].val + q[w[2]].val + q[w[3]].val
  {
    assert w[..3][..2] == w[..2] && w[..2][..1] == w[..1] && w[..1][..0] == [];
    assert Total(q, w[..1]) == q[w[0]].val;
    assert Total(q, w[..2]) == Total(q, w[..1]) + q[w[1]].val;
    assert Total(q, w[..3]) == Total(q, w[..2]) + q[w[2]].val;
  }

  lemma FourFiled(q: Series, w: seq<int>)
    requires |w| == 4 && forall i :: 0 <= i < 4 ==> w[i] in q
    ensures forall i :: 0 <= i < 4 ==> q[w[i]].filed <= Filed(q, w)
    ensures exists i :: 0 <= i < 4 && q[w[i]].filed == Filed(q, w)
  {
    hide Filed;
    FiledBounds(q, w, Filed(q, w));
    FiledBounds(q, w, Filed(q, w) - 1);
    var i :| 0 <= i < 4 && q[w[i]].filed > Filed(q, w) - 1;
    assert q[w[i]].filed == Filed(q, w);
  }

  lemma PointSums(q: Series, w: seq<int>, p: Point)
    requires Spaced(w) && forall i :: 0 <= i < 4 ==> w[i] in q
    ensures p == WindowPoint(q, w) <==> SumsYear(q, w[0], w[1], w[2], w[3], p)
  {
    hide Filed, Total;
    FourTotal(q, w);
    FourFiled(q, w);
    assert p.end == w[3] && p.filed == Filed(q, w) && p.val == Total(q, w) <==> p == WindowPoint(q, w);
  }

  lemma WindowIsYear(q: Series, end: int)
    requires end in q && Spaced(Window(q, end))
    ensures var w := Window(q, end); IsYear(q, w[0], w[1], w[2], w[3]) && w[3] == end
  {
    hide Sorted, LastN;
    WindowEndsThere(q, end);
    var w := Window(q, end);
    forall e | e in q && w[0] <= e <= w[3] ensures e == w[0] || e == w[1] || e == w[2] || e == w[3] {
      AboveIsLastN(UpTo(q, end), 4, e);
      assert e in w;
    }
  }

  lemma YearIsWindow(q: Series, a: int, b: int, c: int, d: int)
    requires IsYear(q, a, b, c, d)
    ensures Window(q, d) == [a, b, c, d]
  {
    hide Sorted, LastN;
    var s, w, v := UpTo(q, d), [a, b, c, d], Window(q, d);
    LastNAbove(s, w);
    WindowEndsThere(q, d);
    SortedSize(s);
    SubsetSize({a, b, c, d}, s);
    assert |{a, b, c, d}| == 4;
    assert |v| == 4;
    forall i | 0 <= i < 4 ensures v[i] == a || v[i] == b || v[i] == c || v[i] == d {
      assert v[i] in LastN(Sorted(s), 4);
      assert v[i] in q && a <= v[i] <= d;
    }
    assert v[0] < v[1] < v[2] < v[3];
    assert v == [v[0], v[1], v[2], v[3]];
  }

  /** There is a trailing sum exactly for each year of consecutive quarters, worth what they sum to. */
  lemma TrailingSumIff(q: Series, p: Point)
    ensures p in Rolling(q) <==> exists a, b, c, d :: IsYear(q, a, b, c, d) && SumsYear(q, a, b, c, d, p)
  {
    hide Rolling, Window, WindowPoint, IsYear, SumsYear;
    RollingIff(q, p);
    if p in Rolling(q) {
      var w := Window(q, p.end);
      WindowIsYear(q, p.end);
      PointSums(q, w, p);
      assert IsYear(q, w[0], w[1], w[2], w[3]) && SumsYear(q, w[0], w[1], w[2], w[3], p);
    }
    forall a, b, c, d | IsYear(q, a, b, c, d) && SumsYear(q, a, b, c, d, p) ensures p in Rolling(q) {
      YearIsWindow(q, a, b, c, d);
      YearParts(q, a, b, c, d, p);
      PointSums(q, [a, b, c, d], p);
    }
  }

  lemma YearParts(q: Series, a: int, b: int, c: int, d: int, p: Point)
    requires IsYear(q, a, b, c, d) && SumsYear(q, a, b, c, d, p)
    ensures Spaced([a, b, c, d]) && p.end == d && d in q
  {}
}
