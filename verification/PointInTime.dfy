/**
 Point-in-time fundamentals (research/mds/edgar.py, `_flow_ttm_points`, `_level_points`, `_pit_align`): trailing
 twelve-month sums built from filings, stamped with the date they became knowable. Dates are day numbers.
 */
module PointInTime {
  import opened Reals

  /** One reported figure: the period it covers (no start for a level), when it was filed, and its value. */
  datatype Obs = Obs(start: Option<int>, end: int, filed: int, val: real)

  /** A quarter's filing date and value. */
  datatype Quarter = Quarter(filed: int, val: real)

  /** A value stamped with its filing date and period end. */
  datatype Point = Point(filed: int, end: int, val: real)

  function Later(x: int, y: int): int {
    if x >= y then x else y
  }

  predicate IsQuarter(o: Obs) {
    o.start.Some? && 80 <= o.end - o.start.value <= 100
  }

  predicate IsAnnual(o: Obs) {
    o.start.Some? && 350 <= o.end - o.start.value <= 380
  }

  // -------------------------------------------------------------------------- first filed wins

  function Insert(o: Obs, s: seq<Obs>): (r: seq<Obs>)
    ensures |r| == |s| + 1
  {
    if |s| == 0 || s[|s| - 1].filed <= o.filed then s + [o] else Insert(o, s[..|s| - 1]) + [s[|s| - 1]]
  }

  /** In order of filing, keeping the given order of figures filed on the same day. */
  function ByFiled(obs: seq<Obs>): (r: seq<Obs>)
    ensures |r| == |obs|
  {
    if |obs| == 0 then [] else Insert(obs[|obs| - 1], ByFiled(obs[..|obs| - 1]))
  }

  predicate InOrder(s: seq<Obs>) {
    forall i, j :: 0 <= i < j < |s| ==> s[i].filed <= s[j].filed
  }

  /** The figures used for a period end: quarters only for a flow, any for a level. */
  predicate Matches(o: Obs, end: int, flow: bool) {
    o.end == end && (flow ==> IsQuarter(o))
  }

  /** The first figure in the list for this period end. */
  function FirstIn(s: seq<Obs>, end: int, flow: bool): Option<Obs> {
    if |s| == 0 then None
    else
      var before := FirstIn(s[..|s| - 1], end, flow);
      if before.None? && Matches(s[|s| - 1], end, flow) then Some(s[|s| - 1]) else before
  }

  /** The earliest filed figure for this period end, the first given on a tie. */
  function FirstFiled(obs: seq<Obs>, end: int, flow: bool): Option<Obs> {
    if |obs| == 0 then None
    else
      var o, before := obs[|obs| - 1], FirstFiled(obs[..|obs| - 1], end, flow);
      if Matches(o, end, flow) && (before.None? || o.filed < before.value.filed) then Some(o) else before
  }

  lemma {:induction false} FirstInIsIn(s: seq<Obs>, end: int, flow: bool)
    requires FirstIn(s, end, flow).Some?
    ensures FirstIn(s, end, flow).value in s
  {
    if FirstIn(s[..|s| - 1], end, flow).Some? {
      FirstInIsIn(s[..|s| - 1], end, flow);
    }
  }

  lemma {:induction false} InsertKeepsOrder(o: Obs, s: seq<Obs>)
    requires InOrder(s)
    ensures InOrder(Insert(o, s)) && forall x :: x in Insert(o, s) ==> x == o || x in s
  {
    if |s| > 0 && s[|s| - 1].filed > o.filed {
      var n := |s| - 1;
      InsertKeepsOrder(o, s[..n]);
      var r := Insert(o, s[..n]);
      forall i | 0 <= i < |r| ensures r[i].filed <= s[n].filed {
        assert r[i] in r;
      }
    }
  }

  lemma {:induction false} InsertFirst(o: Obs, s: seq<Obs>, end: int, flow: bool)
    requires InOrder(s)
    ensures var first := FirstIn(s, end, flow);
      FirstIn(Insert(o, s), end, flow)
        == if Matches(o, end, flow) && (first.None? || o.filed < first.value.filed) then Some(o) else first
  {
    if |s| == 0 || s[|s| - 1].filed <= o.filed {
      assert (s + [o])[..|s|] == s;
      if FirstIn(s, end, flow).Some? {
        FirstInIsIn(s, end, flow);
      }
    } else {
      var n := |s| - 1;
      InsertFirst(o, s[..n], end, flow);
      assert (Insert(o, s[..n]) + [s[n]])[..|s|] == Insert(o, s[..n]);
    }
  }

  lemma {:induction false} SortedFirst(obs: seq<Obs>, end: int, flow: bool)
    ensures InOrder(ByFiled(obs)) && FirstIn(ByFiled(obs), end, flow) == FirstFiled(obs, end, flow)
  {
    if |obs| > 0 {
      hide Insert, InOrder, FirstIn, Matches;
      var n := |obs| - 1;
      SortedFirst(obs[..n], end, flow);
      InsertKeepsOrder(obs[n], ByFiled(obs[..n]));
      InsertFirst(obs[n], ByFiled(obs[..n]), end, flow);
    }
  }

  /** What had been filed by day t. */
  function FiledBy(obs: seq<Obs>, t: int): seq<Obs> {
    if |obs| == 0 then []
    else
      var before := FiledBy(obs[..|obs| - 1], t);
      if obs[|obs| - 1].filed <= t then before + [obs[|obs| - 1]] else before
  }

  /** A value first filed by day t is settled by what had been filed by then: restatements never reach back. */
  lemma {:induction false} NoRestatementLookAhead(obs: seq<Obs>, end: int, flow: bool, t: int)
    ensures var first := FirstFiled(obs, end, flow);
      FirstFiled(FiledBy(obs, t), end, flow) == if first.Some? && first.value.filed <= t then first else None
  {
    if |obs| > 0 {
      NoRestatementLookAhead(obs[..|obs| - 1], end, flow, t);
    }
  }

  // ------------------------------------------------------------------------------- quarter series

  type Series = map<int, Quarter>

  function Reported(s: seq<Obs>, flow: bool): Series {
    if |s| == 0 then map[]
    else
      var o, before := s[|s| - 1], Reported(s[..|s| - 1], flow);
      if Matches(o, o.end, flow) && o.end !in before then before[o.end := Quarter(o.filed, o.val)] else before
  }

  lemma {:induction false} ReportedIsFirst(s: seq<Obs>, flow: bool, end: int)
    ensures var first := FirstIn(s, end, flow);
      if first.None? then end !in Reported(s, flow)
      else end in Reported(s, flow) && Reported(s, flow)[end] == Quarter(first.value.filed, first.value.val)
  {
    if |s| > 0 {
      ReportedIsFirst(s[..|s| - 1], flow, end);
    }
  }

  /** The series holds exactly the originally reported value of each period. */
  lemma FirstFiledWins(obs: seq<Obs>, flow: bool, end: int)
    ensures var first := FirstFiled(obs, end, flow); var q := Reported(ByFiled(obs), flow);
      if first.None? then end !in q
      else end in q && q[end] == Quarter(first.value.filed, first.value.val)
  {
    SortedFirst(obs, end, flow);
    ReportedIsFirst(ByFiled(obs), flow, end);
  }

  function Annuals(s: seq<Obs>): (r: seq<Obs>)
    ensures forall i :: 0 <= i < |r| ==> IsAnnual(r[i]) && r[i] in s
  {
    if |s| == 0 then []
    else
      var before := Annuals(s[..|s| - 1]);
      if IsAnnual(s[|s| - 1]) then before + [s[|s| - 1]] else before
  }

  predicate Increasing(s: seq<int>) {
    forall i, j :: 0 <= i < j < |s| ==> s[i] < s[j]
  }

  lemma Any<T>(s: set<T>) returns (x: T)
    requires s != {}
    ensures x in s
  {
    x :| x in s;
  }

  lemma {:induction false} Greatest(s: set<int>) returns (m: int)
    requires s != {}
    ensures m in s && forall x :: x in s ==> x <= m
    decreases |s|
  {
    var x := Any(s);
    var rest := s - {x};
    m := x;
    if rest != {} {
      var k := Greatest(rest);
      m := Later(x, k);
    }
    forall y | y in s ensures y <= m {
      assert y == x || y in rest;
    }
  }

  function Sorted(s: set<int>): (r: seq<int>)
    ensures Increasing(r) && forall x :: x in s <==> x in r
  {
    if s == {} then []
    else
      assert exists m :: m in s && forall x :: x in s ==> x <= m by {
        var g := Greatest(s);
      }
      var m :| m in s && forall x :: x in s ==> x <= m;
      Sorted(s - {m}) + [m]
  }

  function LastN(s: seq<int>, n: nat): (r: seq<int>)
    ensures |r| == if |s| <= n then |s| else n
    ensures forall i :: 0 <= i < |r| ==> r[i] in s
  {
    if |s| <= n then s else s[|s| - n..]
  }

  /** The last three quarters ending before `end` and within 300 days of it (fewer if there are fewer). */
  function Prior(q: Series, end: int): (r: seq<int>)
    ensures |r| <= 3 && forall i :: 0 <= i < |r| ==> r[i] in q && r[i] < end
  {
    var r := LastN(Sorted(Recent(q, end)), 3);
    assert forall i :: 0 <= i < |r| ==> r[i] in Sorted(Recent(q, end)) && r[i] in Recent(q, end);
    r
  }

  function Recent(q: Series, end: int): set<int> {
    set e | e in q && e < end && end - e <= 300
  }

  function Filed(q: Series, ends: seq<int>): int
    requires |ends| > 0 && forall i :: 0 <= i < |ends| ==> ends[i] in q
  {
    var last := q[ends[|ends| - 1]].filed;
    if |ends| == 1 then last else Later(Filed(q, ends[..|ends| - 1]), last)
  }

  function Total(q: Series, ends: seq<int>): real
    requires forall i :: 0 <= i < |ends| ==> ends[i] in q
  {
    if |ends| == 0 then 0.0 else Total(q, ends[..|ends| - 1]) + q[ends[|ends| - 1]].val
  }

  /** The quarter an annual figure closes, unless it is reported or its three quarters are not there. */
  function Derive(q: Series, a: Obs): Series {
    if a.end in q then q
    else
      var prior := Prior(q, a.end);
      if |prior| == 3 then q[a.end := Quarter(a.filed, a.val - Total(q, prior))] else q
  }

  function DeriveAll(q: Series, annuals: seq<Obs>): Series {
    if |annuals| == 0 then q else Derive(DeriveAll(q, annuals[..|annuals| - 1]), annuals[|annuals| - 1])
  }

  /** Four quarter ends about three months apart. */
  predicate Spaced(w: seq<int>) {
    |w| == 4 && forall k :: 0 <= k < 3 ==> 60 <= w[k + 1] - w[k] <= 130
  }

  function WindowPoint(q: Series, w: seq<int>): Point
    requires Spaced(w) && forall k :: 0 <= k < |w| ==> w[k] in q
  {
    Point(Filed(q, w), w[3], Total(q, w))
  }

  /** The trailing sums of the windows that end among the first n quarters. */
  function TtmPoints(q: Series, ends: seq<int>, n: nat): seq<Point>
    requires n <= |ends| && forall k :: 0 <= k < |ends| ==> ends[k] in q
  {
    if n <= 3 then []
    else
      var before, w := TtmPoints(q, ends, n - 1), ends[n - 4..n];
      if Spaced(w) then before + [WindowPoint(q, w)] else before
  }

  function AnnualPoints(annuals: seq<Obs>): (r: seq<Point>)
    ensures |r| == |annuals|
  {
    seq(|annuals|, i requires 0 <= i < |annuals| => Point(annuals[i].filed, annuals[i].end, annuals[i].val))
  }

  /** The whole quarter series of a flow, derived quarters included. */
  function FlowSeries(obs: seq<Obs>): Series {
    var s := ByFiled(obs);
    DeriveAll(Reported(s, true), Annuals(s))
  }

  function Rolling(q: Series): seq<Point> {
    var ends := Sorted(q.Keys);
    TtmPoints(q, ends, |ends|)
  }

  function FlowPoints(obs: seq<Obs>): seq<Point> {
    Rolling(FlowSeries(obs)) + AnnualPoints(Annuals(ByFiled(obs)))
  }

  method FlowTtmPoints(obs: seq<Obs>) returns (points: seq<Point>)
    ensures points == FlowPoints(obs)
  {
    hide Derive, Sorted, IsQuarter, IsAnnual;
    var s := ByFiled(obs);
    var quarters: Series := map[];
    var annuals: seq<Obs> := [];
    for i := 0 to |s|
      invariant quarters == Reported(s[..i], true) && annuals == Annuals(s[..i])
    {
      var o := s[i];
      assert s[..i + 1][..i] == s[..i];
      NotBoth(o);
      if IsQuarter(o) {
        if o.end !in quarters {
          quarters := quarters[o.end := Quarter(o.filed, o.val)];
        }
      } else if IsAnnual(o) {
        annuals := annuals + [o];
      }
    }
    assert s[..|s|] == s;
    for i := 0 to |annuals|
      invariant quarters == DeriveAll(Reported(s, true), annuals[..i])
    {
      assert annuals[..i + 1][..i] == annuals[..i];
      quarters := Derive(quarters, annuals[i]);
    }
    assert annuals[..|annuals|] == annuals;
    points := RollingSums(quarters, Sorted(quarters.Keys));
    points := points + AnnualPoints(annuals);
  }

  lemma TooFew(q: Series, ends: seq<int>, n: nat)
    requires n <= |ends| && n <= 3 && forall k :: 0 <= k < |ends| ==> ends[k] in q
    ensures TtmPoints(q, ends, n) == []
  {}

  lemma NextSum(q: Series, ends: seq<int>, i: nat)
    requires 3 <= i < |ends| && forall k :: 0 <= k < |ends| ==> ends[k] in q
    ensures var w := ends[i - 3..i + 1];
      TtmPoints(q, ends, i + 1) == TtmPoints(q, ends, i) + (if Spaced(w) then [WindowPoint(q, w)] else [])
  {
    hide Spaced, WindowPoint;
  }

  method RollingSums(q: Series, ends: seq<int>) returns (points: seq<Point>)
    requires forall k :: 0 <= k < |ends| ==> ends[k] in q
    ensures points == TtmPoints(q, ends, |ends|)
  {
    hide Spaced, WindowPoint, TtmPoints;
    points := [];
    TooFew(q, ends, if |ends| < 3 then |ends| else 3);
    for i := 3 to if |ends| < 3 then 3 else |ends|
      invariant points == TtmPoints(q, ends, if |ends| < 3 then |ends| else i)
    {
      NextSum(q, ends, i);
      var window := ends[i - 3..i + 1];
      if Spaced(window) {
        points := points + [WindowPoint(q, window)];
      }
    }
  }

  lemma NotBoth(o: Obs)
    ensures !(IsQuarter(o) && IsAnnual(o))
  {}

  // -------------------------------------------------------------------------- what a sum is worth

  /** The annual figure is filed no earlier than any quarter netted from it. */
  predicate FiledLast(q: Series, a: Obs) {
    a.end !in q && |Prior(q, a.end)| == 3 ==> forall i :: 0 <= i < 3 ==> q[Prior(q, a.end)[i]].filed <= a.filed
  }

  /** No annual figure is filed before one of the three quarters netted from it. */
  predicate AnnualsLast(q: Series, annuals: seq<Obs>) {
    |annuals| == 0 ||
    (var before := annuals[..|annuals| - 1];
     AnnualsLast(q, before) && FiledLast(DeriveAll(q, before), annuals[|annuals| - 1]))
  }

  /** Of the filings of a flow, as far as its annual figures filed by day t go. */
  predicate InSequence(obs: seq<Obs>, t: int) {
    AnnualsLast(Reported(ByFiled(obs), true), Annuals(FiledBy(ByFiled(obs), t)))
  }

  lemma {:induction false} OnlyAdds(q: Series, annuals: seq<Obs>, k: nat)
    requires k <= |annuals|
    ensures forall e :: e in DeriveAll(q, annuals[..k]) ==>
              e in DeriveAll(q, annuals) && DeriveAll(q, annuals)[e] == DeriveAll(q, annuals[..k])[e]
  {
    if k == |annuals| {
      assert annuals[..k] == annuals;
    } else {
      var n := |annuals| - 1;
      OnlyAdds(q, annuals[..n], k);
      assert annuals[..n][..k] == annuals[..k];
      hide Prior, Total;
    }
  }

  lemma {:induction false} TotalUnchanged(q: Series, r: Series, ends: seq<int>)
    requires forall i :: 0 <= i < |ends| ==> ends[i] in q && ends[i] in r && q[ends[i]] == r[ends[i]]
    ensures Total(q, ends) == Total(r, ends)
  {
    if |ends| > 0 {
      TotalUnchanged(q, r, ends[..|ends| - 1]);
    }
  }

  /** A year closed by a derived fourth quarter sums to the annual figure exactly. */
  lemma DerivedYearIsTheAnnual(q: Series, annuals: seq<Obs>, k: nat)
    requires k < |annuals|
    requires annuals[k].end !in DeriveAll(q, annuals[..k]) && |Prior(DeriveAll(q, annuals[..k]), annuals[k].end)| == 3
    ensures var year := Prior(DeriveAll(q, annuals[..k]), annuals[k].end) + [annuals[k].end];
      && (forall i :: 0 <= i < 4 ==> year[i] in DeriveAll(q, annuals))
      && Total(DeriveAll(q, annuals), year) == annuals[k].val
  {
    hide Prior, Total, DeriveAll;
    var before, a := DeriveAll(q, annuals[..k]), annuals[k];
    var prior := Prior(before, a.end);
    var year := prior + [a.end];
    assert DeriveAll(q, annuals[..k + 1]) == Derive(before, a) by {
      DeriveNext(q, annuals, k);
    }
    var after := Derive(before, a);
    assert forall i :: 0 <= i < 3 ==> year[i] == prior[i];
    TotalUnchanged(before, after, prior);
    YearTotal(after, prior, a.end);
    OnlyAdds(q, annuals, k + 1);
    TotalUnchanged(after, DeriveAll(q, annuals), year);
  }

  lemma DeriveNext(q: Series, annuals: seq<Obs>, k: nat)
    requires k < |annuals|
    ensures DeriveAll(q, annuals[..k + 1]) == Derive(DeriveAll(q, annuals[..k]), annuals[k])
  {
    assert annuals[..k + 1][..k] == annuals[..k];
  }

  lemma YearTotal(q: Series, prior: seq<int>, end: int)
    requires end in q && forall i :: 0 <= i < |prior| ==> prior[i] in q
    ensures Total(q, prior + [end]) == Total(q, prior) + q[end].val
  {
    assert (prior + [end])[..|prior|] == prior;
  }

  // ------------------------------------------------------------------------------------ alignment

  predicate NoLaterThan(p: Point, r: Point) {
    p.filed < r.filed || (p.filed == r.filed && p.end <= r.end)
  }

  function InsertPoint(p: Point, s: seq<Point>): (r: seq<Point>)
    ensures |r| == |s| + 1
  {
    if |s| == 0 || NoLaterThan(s[|s| - 1], p) then s + [p] else InsertPoint(p, s[..|s| - 1]) + [s[|s| - 1]]
  }

  /** By filing date, then period end, keeping the given order on ties. */
  function SortedPoints(points: seq<Point>): seq<Point> {
    if |points| == 0 then [] else InsertPoint(points[|points| - 1], SortedPoints(points[..|points| - 1]))
  }

  /** Keeps the last point of each filing date. */
  function LastPerDate(s: seq<Point>): (r: seq<Point>)
    ensures |r| > 0 <==> |s| > 0
    ensures |s| > 0 ==> r[|r| - 1] == s[|s| - 1]
  {
    if |s| <= 1 then s
    else
      var before := LastPerDate(s[..|s| - 1]);
      var p := s[|s| - 1];
      if before[|before| - 1].filed == p.filed then before[..|before| - 1] + [p] else before + [p]
  }

  /** Forward-filled to day t: the last point filed by then. */
  function AsOf(s: seq<Point>, t: int): Option<Point> {
    if |s| == 0 then None else if s[|s| - 1].filed <= t then Some(s[|s| - 1]) else AsOf(s[..|s| - 1], t)
  }

  function Align(points: seq<Point>, t: int): Option<Point> {
    AsOf(LastPerDate(SortedPoints(points)), t)
  }

  predicate Ascending(s: seq<Point>) {
    forall i, j :: 0 <= i < j < |s| ==> NoLaterThan(s[i], s[j])
  }

  lemma {:induction false} InsertPointSorted(p: Point, s: seq<Point>)
    requires Ascending(s)
    ensures Ascending(InsertPoint(p, s)) && forall x :: x in InsertPoint(p, s) ==> x == p || x in s
  {
    if |s| > 0 && !NoLaterThan(s[|s| - 1], p) {
      var n := |s| - 1;
      InsertPointSorted(p, s[..n]);
      var r := InsertPoint(p, s[..n]);
      forall i | 0 <= i < |r| ensures NoLaterThan(r[i], s[n]) {
        assert r[i] in r;
      }
    }
  }

  lemma {:induction false} AsOfIsIn(s: seq<Point>, t: int)
    requires AsOf(s, t).Some?
    ensures AsOf(s, t).value in s && AsOf(s, t).value.filed <= t
  {
    if s[|s| - 1].filed > t {
      AsOfIsIn(s[..|s| - 1], t);
    }
  }

  lemma {:induction false} InsertAsOf(p: Point, s: seq<Point>, t: int)
    requires Ascending(s)
    ensures var r := AsOf(s, t);
      AsOf(InsertPoint(p, s), t) == if p.filed <= t && (r.None? || NoLaterThan(r.value, p)) then Some(p) else r
  {
    if |s| == 0 || NoLaterThan(s[|s| - 1], p) {
      assert (s + [p])[..|s|] == s;
      if AsOf(s, t).Some? {
        AsOfIsIn(s, t);
      }
    } else {
      var n := |s| - 1;
      InsertAsOf(p, s[..n], t);
      assert (InsertPoint(p, s[..n]) + [s[n]])[..|s|] == InsertPoint(p, s[..n]);
    }
  }

  lemma {:induction false} LastPerDateAsOf(s: seq<Point>, t: int)
    requires Ascending(s)
    ensures AsOf(LastPerDate(s), t) == AsOf(s, t)
  {
    if |s| > 1 {
      var n := |s| - 1;
      LastPerDateAsOf(s[..n], t);
      var before := LastPerDate(s[..n]);
      assert (before + [s[n]])[..|before|] == before;
      assert (before[..|before| - 1] + [s[n]])[..|before| - 1] == before[..|before| - 1];
    }
  }

  /** The greatest (filed, end) among the points filed by day t, the last given on a tie. */
  function Latest(points: seq<Point>, t: int): Option<Point> {
    if |points| == 0 then None
    else
      var p, before := points[|points| - 1], Latest(points[..|points| - 1], t);
      if p.filed <= t && (before.None? || NoLaterThan(before.value, p)) then Some(p) else before
  }

  lemma {:induction false} SortedAsOf(points: seq<Point>, t: int)
    ensures Ascending(SortedPoints(points)) && AsOf(SortedPoints(points), t) == Latest(points, t)
  {
    if |points| > 0 {
      hide InsertPoint, Ascending, AsOf, NoLaterThan;
      var n := |points| - 1;
      SortedAsOf(points[..n], t);
      InsertPointSorted(points[n], SortedPoints(points[..n]));
      InsertAsOf(points[n], SortedPoints(points[..n]), t);
    }
  }

  lemma {:induction false} LatestIsGreatest(points: seq<Point>, t: int)
    ensures Latest(points, t).None? <==> forall p :: p in points ==> p.filed > t
    ensures var r := Latest(points, t);
      r.Some? ==> r.value in points && r.value.filed <= t && forall p :: p in points && p.filed <= t ==> NoLaterThan(p, r.value)
  {
    if |points| > 0 {
      var n := |points| - 1;
      LatestIsGreatest(points[..n], t);
      assert points == points[..n] + [points[n]];
    }
  }

  /**
   Alignment returns the point with the greatest (filed, end) among those filed by day t, and nothing exactly
   when none had been filed.
   */
  lemma AlignsToTheLatest(points: seq<Point>, t: int)
    ensures Align(points, t) == Latest(points, t)
    ensures Align(points, t).None? <==> forall p :: p in points ==> p.filed > t
    ensures var r := Align(points, t);
      r.Some? ==> r.value in points && r.value.filed <= t && forall p :: p in points && p.filed <= t ==> NoLaterThan(p, r.value)
  {
    SortedAsOf(points, t);
    LastPerDateAsOf(SortedPoints(points), t);
    LatestIsGreatest(points, t);
  }

  function LevelAt(q: Series, end: int): Point
    requires end in q
  {
    Point(q[end].filed, end, q[end].val)
  }

  /** A level's points, one per period end; alignment does not depend on their order. */
  function LevelPoints(obs: seq<Obs>): seq<Point> {
    var q := Reported(ByFiled(obs), false);
    var ends := Sorted(q.Keys);
    seq(|ends|, i requires 0 <= i < |ends| => LevelAt(q, ends[i]))
  }

  /** A level's points are the originally reported values, all of them and nothing else. */
  lemma LevelPointIs(obs: seq<Obs>, p: Point)
    ensures p in LevelPoints(obs) <==>
              FirstFiled(obs, p.end, false).Some? &&
              var first := FirstFiled(obs, p.end, false).value; p == Point(first.filed, p.end, first.val)
  {
    hide FirstFiled, ByFiled, Reported;
    var q := Reported(ByFiled(obs), false);
    var ends := Sorted(q.Keys);
    FirstFiledWins(obs, false, p.end);
    if p.end in q {
      var i :| 0 <= i < |ends| && ends[i] == p.end;
      assert LevelPoints(obs)[i] == LevelAt(q, p.end);
    }
  }

  /** A level never looks ahead: its aligned value on day t is the one computed from what was filed by day t. */
  lemma AlignedLevelIsCausal(obs: seq<Obs>, t: int)
    ensures Align(LevelPoints(obs), t) == Align(LevelPoints(FiledBy(obs, t)), t)
  {
    hide Align, FirstFiled, LevelPoints;
    var all, known := LevelPoints(obs), LevelPoints(FiledBy(obs, t));
    forall p: Point ensures p in known <==> p in all && p.filed <= t {
      NoRestatementLookAhead(obs, p.end, false, t);
      LevelPointIs(obs, p);
      LevelPointIs(FiledBy(obs, t), p);
    }
    AlignsToTheLatest(all, t);
    AlignsToTheLatest(known, t);
    var r, k := Align(all, t), Align(known, t);
    if r.Some? {
      assert r.value in known;
      LevelPointIs(obs, r.value);
      LevelPointIs(obs, k.value);
    }
  }
}
