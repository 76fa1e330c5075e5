/**
 What later filings can and cannot do to a trailing sum (research/mds/edgar.py, `_flow_ttm_points` and
 `_pit_align`): the sums computed from all filings against those computed from what had been filed by a day.
 */
module FlowLookAhead {
  import opened Reals
  import opened PointInTime

  // ------------------------------------------------------------------------- filings up to a day

  lemma {:induction false} AllFiledBy(s: seq<Obs>, t: int)
    requires forall i :: 0 <= i < |s| ==> s[i].filed <= t
    ensures FiledBy(s, t) == s
  {
    if |s| > 0 {
      AllFiledBy(s[..|s| - 1], t);
    }
  }

  /** Of a list in order of filing, what had been filed by day t comes first. */
  lemma {:induction false} FiledByIsPrefix(s: seq<Obs>, t: int)
    requires InOrder(s)
    ensures FiledBy(s, t) <= s
    ensures forall i :: 0 <= i < |FiledBy(s, t)| ==> s[i].filed <= t
    ensures forall i :: |FiledBy(s, t)| <= i < |s| ==> s[i].filed > t
  {
    if |s| > 0 {
      var n := |s| - 1;
      if s[n].filed <= t {
        AllFiledBy(s, t);
      } else {
        FiledByIsPrefix(s[..n], t);
      }
    }
  }

  lemma FiledByNext(s: seq<Obs>, o: Obs, t: int)
    ensures FiledBy(s + [o], t) == if o.filed <= t then FiledBy(s, t) + [o] else FiledBy(s, t)
  {
    assert (s + [o])[..|s|] == s;
  }

  lemma InsertNext(o: Obs, s: seq<Obs>, last: Obs)
    ensures Insert(o, s + [last]) == if last.filed <= o.filed then s + [last] + [o] else Insert(o, s) + [last]
    ensures Insert(o, []) == [o]
  {
    assert (s + [last])[..|s|] == s;
  }

  lemma {:induction false} InsertFiledBy(o: Obs, s: seq<Obs>, t: int)
    requires InOrder(s)
    ensures FiledBy(Insert(o, s), t) == if o.filed <= t then Insert(o, FiledBy(s, t)) else FiledBy(s, t)
  {
    if |s| == 0 {
      assert FiledBy([], t) == [] && Insert(o, []) == [] + [o];
      FiledByNext([], o, t);
    } else {
      hide FiledBy, Insert;
      var init, last := s[..|s| - 1], s[|s| - 1];
      assert s == init + [last];
      InsertNext(o, init, last);
      FiledByNext(init, last, t);
      if last.filed <= o.filed {
        FiledByNext(s, o, t);
        if o.filed <= t {
          InsertNext(o, FiledBy(init, t), last);
        }
      } else {
        InsertFiledBy(o, init, t);
        FiledByNext(Insert(o, init), last, t);
        if last.filed <= t {
          InsertNext(o, FiledBy(init, t), last);
        }
      }
    }
  }

  lemma ByFiledNext(obs: seq<Obs>, o: Obs)
    ensures ByFiled(obs + [o]) == Insert(o, ByFiled(obs))
  {
    assert (obs + [o])[..|obs|] == obs;
  }

  /** Sorting what had been filed by day t is cutting the sorted list there. */
  lemma {:induction false} SortThenCut(obs: seq<Obs>, t: int)
    ensures InOrder(ByFiled(obs)) && ByFiled(FiledBy(obs, t)) == FiledBy(ByFiled(obs), t)
  {
    if |obs| > 0 {
      hide Insert, InOrder, ByFiled, FiledBy;
      var init, last := obs[..|obs| - 1], obs[|obs| - 1];
      assert obs == init + [last];
      SortThenCut(init, t);
      ByFiledNext(init, last);
      FiledByNext(init, last, t);
      ByFiledNext(FiledBy(init, t), last);
      InsertKeepsOrder(last, ByFiled(init));
      InsertFiledBy(last, ByFiled(init), t);
    }
  }

  // ----------------------------------------------------------------------------- settled entries

  /**
   `early` is the series as of day t and `late` a later one: every end of the first is an end of the second,
   and every entry of the second that is stamped by day t is in the first.
   */
  ghost predicate Settled(early: Series, late: Series, t: int) {
    && (forall e :: e in early ==> e in late && early[e].filed <= t)
    && (forall e :: e in late && late[e].filed <= t ==> e in early && early[e] == late[e])
  }

  lemma {:induction false} ReportedSettles(s: seq<Obs>, k: nat, t: int)
    requires k <= |s| && (forall i :: 0 <= i < k ==> s[i].filed <= t) && (forall i :: k <= i < |s| ==> s[i].filed > t)
    ensures Settled(Reported(s[..k], true), Reported(s, true), t)
    ensures forall e :: e in Reported(s[..k], true) ==> Reported(s, true)[e] == Reported(s[..k], true)[e]
  {
    if k == |s| {
      assert s[..k] == s;
      ReportedStamps(s, t);
    } else {
      var n := |s| - 1;
      assert s[..n][..k] == s[..k];
      ReportedSettles(s[..n], k, t);
    }
  }

  lemma {:induction false} ReportedStamps(s: seq<Obs>, t: int)
    requires forall i :: 0 <= i < |s| ==> s[i].filed <= t
    ensures forall e :: e in Reported(s, true) ==> Reported(s, true)[e].filed <= t
  {
    if |s| > 0 {
      ReportedStamps(s[..|s| - 1], t);
    }
  }

  /** The annual figures of the prefix come first, and the rest were filed later. */
  lemma {:induction false} AnnualsCut(s: seq<Obs>, k: nat, t: int)
    requires k <= |s| && (forall i :: 0 <= i < k ==> s[i].filed <= t) && (forall i :: k <= i < |s| ==> s[i].filed > t)
    ensures Annuals(s[..k]) <= Annuals(s)
    ensures forall i :: 0 <= i < |Annuals(s[..k])| ==> Annuals(s)[i].filed <= t
    ensures forall i :: |Annuals(s[..k])| <= i < |Annuals(s)| ==> Annuals(s)[i].filed > t
  {
    if k == |s| {
      assert s[..k] == s;
      forall i | 0 <= i < |Annuals(s)| ensures Annuals(s)[i].filed <= t {
        assert Annuals(s)[i] in s;
      }
    } else {
      assert s[..|s| - 1][..k] == s[..k];
      AnnualsCut(s[..|s| - 1], k, t);
    }
  }

  // ---------------------------------------------------------------------------- the last few ends

  lemma HasFirst(b: seq<int>)
    ensures b == [] || b[0] in b
  {}

  /** Two increasing lists of the same ends are one list. */
  lemma {:induction false} IncreasingIsUnique(a: seq<int>, b: seq<int>)
    requires Increasing(a) && Increasing(b) && forall x :: x in a <==> x in b
    ensures a == b
  {
    HasFirst(b);
    if |a| > 0 {
      assert a[|a| - 1] in a && |b| > 0;
      var m, k := |a| - 1, |b| - 1;
      assert a[m] in b && b[k] in a;
      assert a[m] == b[k];
      forall x ensures x in a[..m] <==> x in b[..k] {
        Shortened(a, x);
        Shortened(b, x);
      }
      IncreasingIsUnique(a[..m], b[..k]);
    }
  }

  lemma Shortened(a: seq<int>, x: int)
    requires Increasing(a) && |a| > 0
    ensures x in a[..|a| - 1] <==> x in a && x != a[|a| - 1]
  {}

  lemma SortedIs(s: set<int>, a: seq<int>)
    requires Increasing(a) && forall x :: x in s <==> x in a
    ensures Sorted(s) == a
  {
    IncreasingIsUnique(Sorted(s), a);
  }

  /** The greatest of a set comes last. */
  lemma SortedLast(s: set<int>, m: int)
    requires m in s && forall x :: x in s ==> x <= m
    ensures Sorted(s) == Sorted(s - {m}) + [m]
  {
    var rest := Sorted(s - {m});
    assert forall i :: 0 <= i < |rest| ==> rest[i] in s - {m};
    forall x ensures x in s <==> x in rest + [m] {
      assert x in s - {m} <==> x in rest;
    }
    SortedIs(s, rest + [m]);
  }

  /** The last few of a set are its greatest and the last few of the rest. */
  lemma LastNStep(s: set<int>, m: int, n: nat)
    requires m in s && forall x :: x in s ==> x <= m
    ensures LastN(Sorted(s), n + 1) == LastN(Sorted(s - {m}), n) + [m]
  {
    hide Sorted;
    SortedLast(s, m);
  }

  lemma LastNNone(s: set<int>, n: nat)
    requires n == 0 || s == {}
    ensures LastN(Sorted(s), n) == []
  {}

  lemma InSnoc(s: seq<int>, m: int, x: int)
    ensures x in s + [m] <==> x in s || x == m
  {}

  /** The last n of a larger set are the last n of a smaller one that contains them. */
  lemma {:induction false} LastNAgree(few: set<int>, many: set<int>, n: nat)
    requires few <= many && forall x :: x in LastN(Sorted(many), n) ==> x in few
    ensures LastN(Sorted(few), n) == LastN(Sorted(many), n)
    decreases n
  {
    hide Sorted, LastN;
    if n == 0 || many == {} {
      LastNNone(many, n);
      LastNNone(few, n);
    } else {
      var m := Greatest(many);
      LastNStep(many, m, n - 1);
      var tail := LastN(Sorted(many - {m}), n - 1);
      InSnoc(tail, m, m);
      assert m in few;
      LastNStep(few, m, n - 1);
      forall x | x in tail ensures x in few - {m} {
        InLastN(many - {m}, n - 1, x);
        InSnoc(tail, m, x);
      }
      LastNAgree(few - {m}, many - {m}, n - 1);
    }
  }

  lemma InLastN(s: set<int>, n: nat, x: int)
    requires x in LastN(Sorted(s), n)
    ensures x in s
  {
    var r := LastN(Sorted(s), n);
    var i :| 0 <= i < |r| && r[i] == x;
    assert r[i] in Sorted(s);
  }

  lemma {:induction false} SortedSize(s: set<int>)
    ensures |Sorted(s)| == |s|
    decreases |s|
  {
    if s == {} {
      assert Sorted(s) == [];
    } else {
      var m := Greatest(s);
      SortedLast(s, m);
      SortedSize(s - {m});
    }
  }

  /** Nothing among the last n comes before a list of n that are all there. */
  lemma {:induction false} LastNAbove(s: set<int>, w: seq<int>)
    requires |w| > 0 && Increasing(w) && forall k :: 0 <= k < |w| ==> w[k] in s
    ensures forall x :: x in LastN(Sorted(s), |w|) ==> w[0] <= x
    decreases |w|
  {
    hide Sorted, LastN;
    var n := |w| - 1;
    assert w[n] in s && w[0] in s;
    var m := Greatest(s);
    LastNStep(s, m, n);
    var tail := LastN(Sorted(s - {m}), n);
    if n == 0 {
      LastNNone(s - {m}, 0);
    } else {
      forall k | 0 <= k < n ensures w[..n][k] in s - {m} {
        assert w[k] < w[n] <= m;
      }
      LastNAbove(s - {m}, w[..n]);
      assert w[..n][0] == w[0];
    }
    forall x | x in tail + [m] ensures w[0] <= x {
      InSnoc(tail, m, x);
    }
  }

  /** Whatever does not come before the last n is one of them. */
  lemma AboveIsLastN(s: set<int>, n: nat, x: int)
    requires x in s && |LastN(Sorted(s), n)| > 0 && LastN(Sorted(s), n)[0] <= x
    ensures x in LastN(Sorted(s), n)
  {
    hide Sorted;
    InTheTail(Sorted(s), n, x);
  }

  lemma InTheTail(all: seq<int>, n: nat, x: int)
    requires Increasing(all) && x in all && |LastN(all, n)| > 0 && LastN(all, n)[0] <= x
    ensures x in LastN(all, n)
  {
    var j :| 0 <= j < |all| && all[j] == x;
    var from := if |all| <= n then 0 else |all| - n;
    assert LastN(all, n)[0] == all[from];
    assert j >= from;
    assert LastN(all, n)[j - from] == x;
  }

  // -------------------------------------------------------------------------------- derived quarters

  lemma SamePrior(early: Series, late: Series, end: int, t: int)
    requires Settled(early, late, t)
    ensures |Prior(early, end)| <= |Prior(late, end)|
    ensures (forall i :: 0 <= i < |Prior(late, end)| ==> Prior(late, end)[i] in early) ==> Prior(early, end) == Prior(late, end)
  {
    hide Sorted;
    var few, many := Recent(early, end), Recent(late, end);
    assert few <= many;
    SortedSize(few);
    SortedSize(many);
    SubsetSize(few, many);
    var last := Prior(late, end);
    if forall i :: 0 <= i < |last| ==> last[i] in early {
      forall x | x in LastN(Sorted(many), 3) ensures x in few {
        InLastN(many, 3, x);
        var i :| 0 <= i < |last| && last[i] == x;
      }
      LastNAgree(few, many, 3);
    }
  }

  /** An annual figure filed by day t derives the same quarter in both series, or none that is stamped by then. */
  lemma DeriveSettles(early: Series, late: Series, a: Obs, t: int)
    requires Settled(early, late, t) && a.filed <= t && FiledLast(late, a)
    ensures Settled(Derive(early, a), Derive(late, a), t)
  {
    hide Prior, Total;
    if a.end !in early && a.end !in late {
      SamePrior(early, late, a.end, t);
      var prior := Prior(late, a.end);
      if |prior| == 3 {
        forall i | 0 <= i < 3 ensures prior[i] in early && early[prior[i]] == late[prior[i]] {
          assert late[prior[i]].filed <= a.filed;
        }
        TotalUnchanged(early, late, prior);
      }
    } else if a.end !in early {
      assert late[a.end].filed > t;
    }
  }

  lemma LaterSettles(early: Series, late: Series, a: Obs, t: int)
    requires Settled(early, late, t) && a.filed > t
    ensures Settled(early, Derive(late, a), t)
  {
    hide Prior, Total;
  }

  lemma {:induction false} DeriveAllSettles(early: Series, late: Series, annuals: seq<Obs>, k: nat, t: int)
    requires Settled(early, late, t) && k <= |annuals| && AnnualsLast(late, annuals[..k])
    requires forall i :: 0 <= i < k ==> annuals[i].filed <= t
    requires forall i :: k <= i < |annuals| ==> annuals[i].filed > t
    ensures Settled(DeriveAll(early, annuals[..k]), DeriveAll(late, annuals), t)
    decreases |annuals|
  {
    hide Derive, FiledLast, Settled;
    if |annuals| > 0 {
      var n := |annuals| - 1;
      if k == |annuals| {
        assert annuals[..k] == annuals && annuals[..n][..n] == annuals[..n];
        DeriveAllSettles(early, late, annuals[..n], n, t);
        DeriveSettles(DeriveAll(early, annuals[..n]), DeriveAll(late, annuals[..n]), annuals[n], t);
      } else {
        assert annuals[..n][..k] == annuals[..k];
        DeriveAllSettles(early, late, annuals[..n], k, t);
        LaterSettles(DeriveAll(early, annuals[..k]), DeriveAll(late, annuals[..n]), annuals[n], t);
      }
    }
  }

  /** The flow's series as of day t settles into the one from all filings. */
  lemma SeriesSettles(obs: seq<Obs>, t: int)
    requires InSequence(obs, t)
    ensures Settled(FlowSeries(FiledBy(obs, t)), FlowSeries(obs), t)
    ensures Annuals(ByFiled(FiledBy(obs, t))) <= Annuals(ByFiled(obs))
    ensures forall i :: |Annuals(ByFiled(FiledBy(obs, t)))| <= i < |Annuals(ByFiled(obs))| ==> Annuals(ByFiled(obs))[i].filed > t
  {
    hide ByFiled, Reported, Annuals, DeriveAll, Settled, AnnualsLast;
    var s := ByFiled(obs);
    SortThenCut(obs, t);
    FiledByIsPrefix(s, t);
    var k := |FiledBy(s, t)|;
    assert FiledBy(s, t) == s[..k];
    ReportedSettles(s, k, t);
    AnnualsCut(s, k, t);
    var annuals, j := Annuals(s), |Annuals(s[..k])|;
    assert annuals[..j] == Annuals(s[..k]);
    DeriveAllSettles(Reported(s[..k], true), Reported(s, true), annuals, j, t);
  }

  // ------------------------------------------------------------------------------------- windows

  /** The last four quarters up to `end`. */
  function Window(q: Series, end: int): (w: seq<int>)
    ensures |w| <= 4 && forall i :: 0 <= i < |w| ==> w[i] in q
  {
    var w := LastN(Sorted(UpTo(q, end)), 4);
    assert forall i :: 0 <= i < |w| ==> w[i] in Sorted(UpTo(q, end)) && w[i] in UpTo(q, end);
    w
  }

  function UpTo(q: Series, end: int): set<int> {
    set e | e in q && e <= end
  }

  /** The trailing sum that ends at a quarter, if its four quarters are about three months apart. */
  function RollingAt(q: Series, end: int): Option<Point> {
    var w := Window(q, end);
    if end in q && Spaced(w) then Some(WindowPoint(q, w)) else None
  }

  lemma PrefixIsUpTo(q: Series, i: nat)
    requires i < |Sorted(q.Keys)|
    ensures Sorted(UpTo(q, Sorted(q.Keys)[i])) == Sorted(q.Keys)[..i + 1]
  {
    hide Sorted;
    var ends := Sorted(q.Keys);
    forall x ensures x in UpTo(q, ends[i]) <==> x in ends[..i + 1] {
      if x in UpTo(q, ends[i]) {
        var j :| 0 <= j < |ends| && ends[j] == x;
        assert j <= i;
        assert ends[..i + 1][j] == x;
      }
    }
    SortedIs(UpTo(q, ends[i]), ends[..i + 1]);
  }

  lemma WindowEndsThere(q: Series, end: int)
    requires end in q
    ensures |Window(q, end)| > 0 && Window(q, end)[|Window(q, end)| - 1] == end && Increasing(Window(q, end))
  {
    SortedLast(UpTo(q, end), end);
  }

  lemma {:induction false} RollingUpTo(q: Series, n: nat, p: Point)
    requires n <= |Sorted(q.Keys)|
    ensures p in TtmPoints(q, Sorted(q.Keys), n) <==>
              exists i :: 0 <= i < n && p.end == Sorted(q.Keys)[i] && RollingAt(q, p.end) == Some(p)
  {
    hide Sorted, WindowPoint, Spaced;
    if n > 0 {
      var ends := Sorted(q.Keys);
      RollingUpTo(q, n - 1, p);
      PrefixIsUpTo(q, n - 1);
      AtPosition(q, n);
      AtIsItsEnd(q, ends[n - 1]);
    }
  }

  /** The n-th quarter's window is the last four of the first n. */
  lemma WindowAt(q: Series, n: nat)
    requires 0 < n <= |Sorted(q.Keys)|
    ensures Sorted(q.Keys)[n - 1] in q && Window(q, Sorted(q.Keys)[n - 1]) == LastN(Sorted(q.Keys)[..n], 4)
  {
    hide Sorted, LastN;
    PrefixIsUpTo(q, n - 1);
    assert Sorted(q.Keys)[n - 1] in Sorted(q.Keys);
  }

  lemma AtPosition(q: Series, n: nat)
    requires 0 < n <= |Sorted(q.Keys)|
    ensures var ends := Sorted(q.Keys);
      && (n <= 3 ==> RollingAt(q, ends[n - 1]) == None)
      && (n > 3 ==> RollingAt(q, ends[n - 1]) == if Spaced(ends[n - 4..n]) then Some(WindowPoint(q, ends[n - 4..n])) else None)
  {
    hide Sorted, WindowPoint, Window;
    var ends := Sorted(q.Keys);
    WindowAt(q, n);
    if n > 3 {
      assert ends[..n][n - 4..] == ends[n - 4..n];
    }
  }

  lemma AtIsItsEnd(q: Series, end: int)
    ensures RollingAt(q, end).Some? ==> RollingAt(q, end).value.end == end
  {
    hide Sorted;
    if end in q {
      WindowEndsThere(q, end);
    }
  }

  /** The trailing sums of a series are the sums of its windows. */
  lemma RollingIff(q: Series, p: Point)
    ensures p in Rolling(q) <==> RollingAt(q, p.end) == Some(p)
  {
    hide RollingAt, Sorted;
    RollingUpTo(q, |Sorted(q.Keys)|, p);
    if RollingAt(q, p.end) == Some(p) {
      InSeries(q, p.end);
      assert p.end in Sorted(q.Keys);
      var i :| 0 <= i < |Sorted(q.Keys)| && Sorted(q.Keys)[i] == p.end;
    }
  }

  lemma InSeries(q: Series, end: int)
    requires RollingAt(q, end).Some?
    ensures end in q
  {}

  lemma {:induction false} FiledBounds(q: Series, w: seq<int>, t: int)
    requires |w| > 0 && forall i :: 0 <= i < |w| ==> w[i] in q
    ensures Filed(q, w) <= t <==> forall i :: 0 <= i < |w| ==> q[w[i]].filed <= t
  {
    if |w| > 1 {
      var init := w[..|w| - 1];
      FiledBounds(q, init, t);
      assert forall i :: 0 <= i < |init| ==> init[i] == w[i];
    }
  }

  lemma {:induction false} FiledUnchanged(q: Series, r: Series, w: seq<int>)
    requires |w| > 0 && forall i :: 0 <= i < |w| ==> w[i] in q && w[i] in r && q[w[i]] == r[w[i]]
    ensures Filed(q, w) == Filed(r, w)
  {
    if |w| > 1 {
      FiledUnchanged(q, r, w[..|w| - 1]);
    }
  }

  /** A window all of whose quarters are stamped by day t is the same in both series. */
  lemma SameWindow(early: Series, late: Series, end: int, t: int)
    requires Settled(early, late, t) && end in late
    requires forall i :: 0 <= i < |Window(late, end)| ==> late[Window(late, end)[i]].filed <= t
    ensures end in early && Window(early, end) == Window(late, end)
    ensures RollingAt(early, end) == RollingAt(late, end)
  {
    hide Sorted;
    var few, many := UpTo(early, end), UpTo(late, end);
    var w := Window(late, end);
    WindowEndsThere(late, end);
    forall x | x in LastN(Sorted(many), 4) ensures x in few {
      InLastN(many, 4, x);
      var i :| 0 <= i < |w| && w[i] == x;
    }
    LastNAgree(few, many, 4);
    assert Window(early, end) == w;
    assert forall i :: 0 <= i < |w| ==> early[w[i]] == late[w[i]];
    FiledUnchanged(early, late, w);
    TotalUnchanged(early, late, w);
  }

  /** A trailing sum stamped by day t is already there on day t. */
  lemma SumSettles(early: Series, late: Series, p: Point, t: int)
    requires Settled(early, late, t) && RollingAt(late, p.end) == Some(p) && p.filed <= t
    ensures RollingAt(early, p.end) == Some(p)
  {
    var w := Window(late, p.end);
    FiledBounds(late, w, t);
    SameWindow(early, late, p.end, t);
  }

  /** No quarter of the later series that falls into the window ending here was stamped after day t. */
  predicate Undisturbed(early: Series, late: Series, end: int, t: int) {
    var w := Window(early, end);
    |w| > 0 ==> forall e :: e in late && w[0] <= e <= end ==> late[e].filed <= t
  }

  lemma UndisturbedWindow(early: Series, late: Series, end: int, t: int)
    requires Settled(early, late, t) && end in early && |Window(early, end)| == 4 && Undisturbed(early, late, end, t)
    ensures RollingAt(late, end) == RollingAt(early, end)
  {
    hide Sorted;
    var w := Window(early, end);
    var many := UpTo(late, end);
    WindowEndsThere(early, end);
    forall k | 0 <= k < 4 ensures w[k] in many {
      assert w[k] in early && w[k] <= w[3];
    }
    LastNAbove(many, w);
    var v := Window(late, end);
    forall i | 0 <= i < |v| ensures late[v[i]].filed <= t {
      assert v[i] in LastN(Sorted(many), 4);
      InLastN(many, 4, v[i]);
    }
    SameWindow(early, late, end, t);
  }

  lemma SameSumIsUndisturbed(early: Series, late: Series, end: int, t: int)
    requires Settled(early, late, t) && RollingAt(early, end).Some? && RollingAt(late, end) == RollingAt(early, end)
    ensures Undisturbed(early, late, end, t)
  {
    hide Sorted;
    var w, v := Window(early, end), Window(late, end);
    FiledBounds(early, w, t);
    FiledBounds(late, v, t);
    SameWindow(early, late, end, t);
    forall e | e in late && w[0] <= e <= end ensures late[e].filed <= t {
      AboveIsLastN(UpTo(late, end), 4, e);
      var i :| 0 <= i < |v| && v[i] == e;
    }
  }

  // ------------------------------------------------------------------------------------ alignment

  lemma {:induction false} LatestAppend(a: seq<Point>, b: seq<Point>, t: int)
    ensures var x, y := Latest(a, t), Latest(b, t);
      Latest(a + b, t) == if y.Some? && (x.None? || NoLaterThan(x.value, y.value)) then y else x
  {
    if |b| == 0 {
      assert a + b == a;
    } else {
      var n := |b| - 1;
      assert (a + b)[..|a + b| - 1] == a + b[..n];
      LatestAppend(a, b[..n], t);
      LatestIsGreatest(b[..n], t);
    }
  }

  lemma {:induction false} NoneBy(points: seq<Point>, t: int)
    requires forall i :: 0 <= i < |points| ==> points[i].filed > t
    ensures Latest(points, t) == None
  {
    if |points| > 0 {
      NoneBy(points[..|points| - 1], t);
    }
  }

  lemma SameAnnuals(early: seq<Obs>, late: seq<Obs>, t: int)
    requires early <= late && forall i :: |early| <= i < |late| ==> late[i].filed > t
    ensures Latest(AnnualPoints(late), t) == Latest(AnnualPoints(early), t)
    ensures forall p :: p in AnnualPoints(late) && p.filed <= t ==> p in AnnualPoints(early)
  {
    var rest := AnnualPoints(late[|early|..]);
    assert AnnualPoints(late) == AnnualPoints(early) + rest;
    NoneBy(rest, t);
    LatestAppend(AnnualPoints(early), rest, t);
    forall p | p in AnnualPoints(late) && p.filed <= t ensures p in AnnualPoints(early) {
      var i :| 0 <= i < |late| && AnnualPoints(late)[i] == p;
      assert i < |early|;
      assert AnnualPoints(early)[i] == p;
    }
  }

  /**
   No look-ahead: every point stamped by day t, sum or annual figure, is among the points computed from what had
   been filed by day t. This needs every annual figure filed by then to be filed no earlier than the three
   quarters netted from it.
   */
  lemma FlowPointsAreKnown(obs: seq<Obs>, t: int)
    requires InSequence(obs, t)
    ensures forall p :: p in FlowPoints(obs) && p.filed <= t ==> p in FlowPoints(FiledBy(obs, t))
  {
    hide FlowSeries, Rolling, RollingAt, Settled, Annuals, ByFiled, AnnualPoints, InSequence;
    var known := FiledBy(obs, t);
    var early, late := FlowSeries(known), FlowSeries(obs);
    SeriesSettles(obs, t);
    SameAnnuals(Annuals(ByFiled(known)), Annuals(ByFiled(obs)), t);
    forall p | p in FlowPoints(obs) && p.filed <= t ensures p in FlowPoints(known) {
      RollingIff(early, p);
      RollingIff(late, p);
      if p in Rolling(late) {
        SumSettles(early, late, p, t);
      }
    }
  }

  /** The latest trailing sum known on day t, unless an annual figure known by then supersedes it. */
  function Standing(known: seq<Obs>, t: int): Option<Point> {
    var sum, annual := Latest(Rolling(FlowSeries(known)), t), Latest(AnnualPoints(Annuals(ByFiled(known))), t);
    if sum.Some? && annual.Some? && NoLaterThan(sum.value, annual.value) then None else sum
  }

  /** What one side's sums and the shared annual figures align to. */
  lemma AlignedFlow(obs: seq<Obs>, t: int)
    ensures var sum, annual := Latest(Rolling(FlowSeries(obs)), t), Latest(AnnualPoints(Annuals(ByFiled(obs))), t);
      Align(FlowPoints(obs), t) == Winner(sum, annual)
  {
    hide FlowSeries, Rolling, Annuals, ByFiled, AnnualPoints, Align;
    AlignsToTheLatest(FlowPoints(obs), t);
    LatestAppend(Rolling(FlowSeries(obs)), AnnualPoints(Annuals(ByFiled(obs))), t);
  }

  /** The latest sum among all filings is the one known on day t exactly when its window is undisturbed. */
  lemma LatestSumAgrees(early: Series, late: Series, t: int)
    requires Settled(early, late, t)
    ensures var x, y := Latest(Rolling(early), t), Latest(Rolling(late), t);
      && (y.Some? ==> x.Some? && NoLaterThan(y.value, x.value))
      && (x.Some? && y.Some? && y.value == x.value ==> Undisturbed(early, late, x.value.end, t))
      && (x.Some? && Undisturbed(early, late, x.value.end, t) ==> y == x)
      && (x.Some? && !Undisturbed(early, late, x.value.end, t) ==> x.value !in Rolling(late))
  {
    hide Rolling, RollingAt, Settled, Undisturbed, Window;
    var x, y := Latest(Rolling(early), t), Latest(Rolling(late), t);
    LatestIsGreatest(Rolling(early), t);
    LatestIsGreatest(Rolling(late), t);
    if y.Some? {
      RollingIff(early, y.value);
      RollingIff(late, y.value);
      SumSettles(early, late, y.value, t);
    }
    if x.Some? {
      RollingIff(early, x.value);
      RollingIff(late, x.value);
      SumAgrees(early, late, x.value, t);
    }
  }

  lemma SumAgrees(early: Series, late: Series, p: Point, t: int)
    requires Settled(early, late, t) && RollingAt(early, p.end) == Some(p)
    ensures RollingAt(late, p.end) == Some(p) <==> Undisturbed(early, late, p.end, t)
  {
    hide Settled, Window, Undisturbed;
    if Undisturbed(early, late, p.end, t) {
      HasWindow(early, p.end);
      UndisturbedWindow(early, late, p.end, t);
    }
    if RollingAt(late, p.end) == Some(p) {
      SameSumIsUndisturbed(early, late, p.end, t);
    }
  }

  lemma HasWindow(q: Series, end: int)
    requires RollingAt(q, end).Some?
    ensures end in q && |Window(q, end)| == 4
  {
    hide Window;
  }

  /**
   When the aligned flow of day t is the one that could have been computed on day t: exactly when no annual
   figure nor trailing sum was known by then, or an annual figure superseded the sums, or no quarter filed later
   falls into the window of the sum that stood.
   */
  lemma AlignedFlowIsCausalIff(obs: seq<Obs>, t: int)
    requires InSequence(obs, t)
    ensures var known := FiledBy(obs, t); var sum := Standing(known, t);
      (Align(FlowPoints(obs), t) == Align(FlowPoints(known), t))
      <==> (sum.None? || Undisturbed(FlowSeries(known), FlowSeries(obs), sum.value.end, t))
  {
    hide FlowSeries, Rolling, Annuals, ByFiled, AnnualPoints, Align, FlowPoints, Settled, Undisturbed, InSequence;
    var known := FiledBy(obs, t);
    SeriesSettles(obs, t);
    SameAnnuals(Annuals(ByFiled(known)), Annuals(ByFiled(obs)), t);
    AlignedFlow(obs, t);
    AlignedFlow(known, t);
    LatestSumAgrees(FlowSeries(known), FlowSeries(obs), t);
    LatestIsGreatest(Rolling(FlowSeries(obs)), t);
    hide *;
    var x, y := Latest(Rolling(FlowSeries(known)), t), Latest(Rolling(FlowSeries(obs)), t);
    Superseded(x, y, Latest(AnnualPoints(Annuals(ByFiled(known))), t));
  }

  function Winner(sum: Option<Point>, annual: Option<Point>): Option<Point> {
    if annual.Some? && (sum.None? || NoLaterThan(sum.value, annual.value)) then annual else sum
  }

  /** Against the same annual figure, an earlier sum changes the winner exactly when the later one stood. */
  lemma Superseded(x: Option<Point>, y: Option<Point>, annual: Option<Point>)
    requires y.Some? ==> x.Some? && NoLaterThan(y.value, x.value)
    ensures Winner(y, annual) == Winner(x, annual) <==> x.None? || Winner(x, annual) == annual || y == x
  {}

  // -------------------------------------------------------------------------- a sum that disappears

  /** Three quarters, the year, the next first quarter, and then the fourth quarter itself, filed late. */
  const LATE_QUARTER := [Obs(Some(0), 90, 100, 1.0), Obs(Some(90), 180, 190, 1.0), Obs(Some(180), 270, 280, 1.0),
                         Obs(Some(0), 360, 400, 10.0), Obs(Some(360), 450, 470, 5.0), Obs(Some(270), 360, 500, 7.0)]

  lemma {:induction false} AlreadySorted(s: seq<Obs>)
    requires InOrder(s)
    ensures ByFiled(s) == s
  {
    if |s| > 0 {
      var n := |s| - 1;
      AlreadySorted(s[..n]);
      assert s == s[..n] + [s[n]];
    }
  }

  lemma ReportedNext(s: seq<Obs>, o: Obs)
    ensures var q := Reported(s, true);
      Reported(s + [o], true) == if IsQuarter(o) && o.end !in q then q[o.end := Quarter(o.filed, o.val)] else q
    ensures Annuals(s + [o]) == if IsAnnual(o) then Annuals(s) + [o] else Annuals(s)
  {
    assert (s + [o])[..|s|] == s;
  }

  /** The series as of day 480, with the fourth quarter derived, and the final one, with it reported. */
  const KNOWN_SERIES: Series := map[90 := Quarter(100, 1.0), 180 := Quarter(190, 1.0), 270 := Quarter(280, 1.0),
                                    450 := Quarter(470, 5.0), 360 := Quarter(400, 7.0)]
  const FINAL_SERIES: Series := map[90 := Quarter(100, 1.0), 180 := Quarter(190, 1.0), 270 := Quarter(280, 1.0),
                                    450 := Quarter(470, 5.0), 360 := Quarter(500, 7.0)]

  /** The example's filings are in order, and all but the last were filed by day 480. */
  lemma InFilingOrder()
    ensures ByFiled(LATE_QUARTER) == LATE_QUARTER && FiledBy(LATE_QUARTER, 480) == LATE_QUARTER[..5]
  {
    hide ByFiled, FiledBy;
    AlreadySorted(LATE_QUARTER);
    var early, last := LATE_QUARTER[..5], LATE_QUARTER[5];
    forall i | 0 <= i < 5 ensures early[i].filed <= 480 {
      assert early[i] == LATE_QUARTER[i];
    }
    AllFiledBy(early, 480);
    FiledByNext(early, last, 480);
    assert LATE_QUARTER == early + [last];
  }

  /** As reported by day 480: no fourth quarter yet. */
  const FOUR_QUARTERS: Series := map[90 := Quarter(100, 1.0), 180 := Quarter(190, 1.0), 270 := Quarter(280, 1.0),
                                     450 := Quarter(470, 5.0)]

  const THREE_QUARTERS: Series := map[90 := Quarter(100, 1.0), 180 := Quarter(190, 1.0), 270 := Quarter(280, 1.0)]

  /** One more filing of the example. */
  lemma ReportedStep(k: nat)
    requires k < 6
    ensures var o, q := LATE_QUARTER[k], Reported(LATE_QUARTER[..k], true);
      Reported(LATE_QUARTER[..k + 1], true) == if IsQuarter(o) && o.end !in q then q[o.end := Quarter(o.filed, o.val)] else q
    ensures var o := LATE_QUARTER[k];
      Annuals(LATE_QUARTER[..k + 1]) == if IsAnnual(o) then Annuals(LATE_QUARTER[..k]) + [o] else Annuals(LATE_QUARTER[..k])
  {
    hide Reported, Annuals;
    assert LATE_QUARTER[..k + 1] == LATE_QUARTER[..k] + [LATE_QUARTER[k]];
    ReportedNext(LATE_QUARTER[..k], LATE_QUARTER[k]);
  }

  lemma ThreeReported()
    ensures Reported(LATE_QUARTER[..3], true) == THREE_QUARTERS && Annuals(LATE_QUARTER[..3]) == []
  {
    assert Reported(LATE_QUARTER[..0], true) == map[] && Annuals(LATE_QUARTER[..0]) == [];
    hide Reported, Annuals;
    ReportedStep(0);
    ReportedStep(1);
    ReportedStep(2);
  }

  lemma FourReported()
    ensures Reported(LATE_QUARTER[..5], true) == FOUR_QUARTERS && Annuals(LATE_QUARTER[..5]) == [LATE_QUARTER[3]]
  {
    hide Reported, Annuals;
    ThreeReported();
    ReportedStep(3);
    ReportedStep(4);
  }

  lemma ReportedQuarters()
    ensures ByFiled(LATE_QUARTER) == LATE_QUARTER && FiledBy(LATE_QUARTER, 480) == LATE_QUARTER[..5]
    ensures Reported(LATE_QUARTER[..5], true) == FOUR_QUARTERS && Reported(LATE_QUARTER, true) == FINAL_SERIES
    ensures Annuals(LATE_QUARTER[..5]) == Annuals(LATE_QUARTER) == [LATE_QUARTER[3]]
  {
    hide Reported, Annuals, ByFiled, FiledBy;
    InFilingOrder();
    FourReported();
    ReportedStep(5);
    assert LATE_QUARTER[..6] == LATE_QUARTER;
  }

  lemma DeriveOne(q: Series, a: Obs)
    ensures DeriveAll(q, [a]) == Derive(q, a) && (AnnualsLast(q, [a]) <==> FiledLast(q, a))
  {
    assert [a][..0] == [];
    assert DeriveAll(q, []) == q && AnnualsLast(q, []);
  }

  /** The series of filings already in order, with one annual figure among them. */
  lemma SeriesOf(s: seq<Obs>, q: Series, a: Obs, t: int)
    requires ByFiled(s) == s && Reported(s, true) == q && Annuals(s) == [a]
    ensures FlowSeries(s) == Derive(q, a) && Annuals(ByFiled(s)) == [a]
    ensures Annuals(FiledBy(s, t)) == [a] && FiledLast(q, a) ==> InSequence(s, t)
  {
    hide ByFiled, Reported, Annuals, FiledBy, DeriveAll, AnnualsLast, Derive, FiledLast;
    DeriveOne(q, a);
  }

  /** Rebuilt from everything, the year's fourth quarter is reported and nothing is derived. */
  lemma FinalSeries()
    ensures FlowSeries(LATE_QUARTER) == FINAL_SERIES && InSequence(LATE_QUARTER, 480)
    ensures Annuals(ByFiled(LATE_QUARTER)) == [LATE_QUARTER[3]]
  {
    hide ByFiled, Reported, Annuals, FiledBy, Prior, FlowSeries, InSequence;
    ReportedQuarters();
    SeriesOf(LATE_QUARTER, FINAL_SERIES, LATE_QUARTER[3], 480);
  }

  lemma PriorQuarters(q: Series)
    requires q.Keys == {90, 180, 270, 450}
    ensures Prior(q, 360) == [90, 180, 270]
  {
    hide Sorted;
    forall x ensures x in Recent(q, 360) <==> x in [90, 180, 270] {
      assert x in q <==> x in q.Keys;
    }
    SortedIs(Recent(q, 360), [90, 180, 270]);
  }

  lemma DerivedQuarter()
    ensures Derive(FOUR_QUARTERS, LATE_QUARTER[3]) == KNOWN_SERIES
  {
    hide Prior, Total;
    PriorQuarters(FOUR_QUARTERS);
    ThreeTotal(FOUR_QUARTERS, 90, 180, 270);
  }

  /** On day 480 the fourth quarter has to be derived. */
  lemma KnownSeries()
    ensures FlowSeries(LATE_QUARTER[..5]) == KNOWN_SERIES
    ensures Annuals(ByFiled(LATE_QUARTER[..5])) == [LATE_QUARTER[3]]
  {
    hide ByFiled, Reported, Annuals, FiledBy, FlowSeries, Derive;
    ReportedQuarters();
    AlreadySorted(LATE_QUARTER[..5]);
    DerivedQuarter();
    SeriesOf(LATE_QUARTER[..5], FOUR_QUARTERS, LATE_QUARTER[3], 480);
  }

  lemma ThreeTotal(q: Series, a: int, b: int, c: int)
    requires a in q && b in q && c in q
    ensures Total(q, [a, b, c]) == q[a].val + q[b].val + q[c].val
    ensures Filed(q, [a, b, c]) == Later(Later(q[a].filed, q[b].filed), q[c].filed)
  {
    assert [a, b, c][..2] == [a, b] && [a, b][..1] == [a] && [a][..0] == [];
    assert Total(q, [a][..0]) == 0.0;
    assert Total(q, [a]) == q[a].val && Filed(q, [a]) == q[a].filed;
    assert Total(q, [a, b]) == q[a].val + q[b].val && Filed(q, [a, b]) == Later(q[a].filed, q[b].filed);
  }

  lemma FourFigures(q: Series, a: int, b: int, c: int, d: int)
    requires a in q && b in q && c in q && d in q
    ensures Total(q, [a, b, c, d]) == q[a].val + q[b].val + q[c].val + q[d].val
    ensures Filed(q, [a, b, c, d]) == Later(Later(Later(q[a].filed, q[b].filed), q[c].filed), q[d].filed)
  {
    ThreeTotal(q, a, b, c);
    assert [a, b, c, d][..3] == [a, b, c];
    hide Later;
  }

  lemma WindowIs(q: Series, end: int, upTo: seq<int>)
    requires Increasing(upTo) && forall x :: (x in q && x <= end) <==> x in upTo
    ensures Window(q, end) == LastN(upTo, 4)
  {
    hide Sorted, LastN;
    SortedIs(UpTo(q, end), upTo);
  }

  lemma FiveEnds(q: Series, x: int)
    requires q.Keys == {90, 180, 270, 360, 450}
    ensures x in q <==> x == 90 || x == 180 || x == 270 || x == 360 || x == 450
  {
    assert x in q <==> x in q.Keys;
  }

  lemma ShortWindows(q: Series)
    requires q.Keys == {90, 180, 270, 360, 450}
    ensures |Window(q, 90)| < 4 && |Window(q, 180)| < 4 && |Window(q, 270)| < 4
  {
    hide Window;
    forall x ensures x in q <==> x == 90 || x == 180 || x == 270 || x == 360 || x == 450 {
      FiveEnds(q, x);
    }
    WindowIs(q, 90, [90]);
    WindowIs(q, 180, [90, 180]);
    WindowIs(q, 270, [90, 180, 270]);
  }

  lemma YearWindow(q: Series)
    requires q.Keys == {90, 180, 270, 360, 450}
    ensures Window(q, 360) == [90, 180, 270, 360]
  {
    hide Window;
    forall x ensures x in q <==> x == 90 || x == 180 || x == 270 || x == 360 || x == 450 {
      FiveEnds(q, x);
    }
    WindowIs(q, 360, [90, 180, 270, 360]);
  }

  lemma NextWindow(q: Series)
    requires q.Keys == {90, 180, 270, 360, 450}
    ensures Window(q, 450) == [180, 270, 360, 450]
  {
    hide Window;
    forall x ensures x in q <==> x == 90 || x == 180 || x == 270 || x == 360 || x == 450 {
      FiveEnds(q, x);
    }
    WindowIs(q, 450, [90, 180, 270, 360, 450]);
  }

  lemma OnlyTwoSums(q: Series, p: Point)
    requires q.Keys == {90, 180, 270, 360, 450}
    ensures p in Rolling(q) <==> (p == WindowPoint(q, [90, 180, 270, 360]) || p == WindowPoint(q, [180, 270, 360, 450]))
  {
    hide Window, WindowPoint, Rolling;
    ShortWindows(q);
    YearWindow(q);
    NextWindow(q);
    RollingIff(q, p);
    FiveEnds(q, p.end);
    WindowEnd(q, [90, 180, 270, 360]);
    WindowEnd(q, [180, 270, 360, 450]);
    assert Spaced([90, 180, 270, 360]) && Spaced([180, 270, 360, 450]);
  }

  lemma WindowEnd(q: Series, w: seq<int>)
    requires Spaced(w) && forall k :: 0 <= k < |w| ==> w[k] in q
    ensures WindowPoint(q, w).end == w[3]
  {}

  lemma SumsOf(q: Series)
    requires q == FINAL_SERIES || q == KNOWN_SERIES
    ensures WindowPoint(q, [90, 180, 270, 360]) == Point(q[360].filed, 360, 10.0)
    ensures WindowPoint(q, [180, 270, 360, 450]) == Point(if q == FINAL_SERIES then 500 else 470, 450, 14.0)
  {
    hide Total, Filed;
    FourFigures(q, 90, 180, 270, 360);
    FourFigures(q, 180, 270, 360, 450);
  }

  lemma AnnualPoint(p: Point)
    ensures p in AnnualPoints([LATE_QUARTER[3]]) <==> p == Point(400, 360, 10.0)
  {
    assert AnnualPoints([LATE_QUARTER[3]])[0] == Point(400, 360, 10.0);
  }

  lemma FinalPoint(p: Point)
    ensures p in FlowPoints(LATE_QUARTER) <==> p in {Point(400, 360, 10.0), Point(500, 360, 10.0), Point(500, 450, 14.0)}
  {
    hide Rolling, FlowSeries, ByFiled, Annuals, WindowPoint, AnnualPoints, InSequence;
    FinalSeries();
    OnlyTwoSums(FINAL_SERIES, p);
    SumsOf(FINAL_SERIES);
    AnnualPoint(p);
  }

  lemma KnownPoint(p: Point)
    ensures p in FlowPoints(LATE_QUARTER[..5]) <==> p in {Point(400, 360, 10.0), Point(470, 450, 14.0)}
  {
    hide Rolling, FlowSeries, ByFiled, Annuals, WindowPoint, AnnualPoints;
    KnownSeries();
    OnlyTwoSums(KNOWN_SERIES, p);
    SumsOf(KNOWN_SERIES);
    AnnualPoint(p);
  }

  lemma AlignsTo(points: seq<Point>, t: int, best: Point)
    requires best in points && best.filed <= t
    requires forall p :: p in points && p.filed <= t && p != best ==> !NoLaterThan(best, p)
    ensures Align(points, t) == Some(best)
  {
    hide Align;
    AlignsToTheLatest(points, t);
  }

  /**
   A sum can disappear. On day 480 the aligned flow is 14, the sum of the four quarters to day 450; rebuilt after
   the fourth quarter of the year has been filed, on day 500, the flow aligned to that same day 480 is 10.
   */
  lemma LaterFilingChangesThePast()
    ensures InSequence(LATE_QUARTER, 480)
    ensures Align(FlowPoints(LATE_QUARTER), 480) == Some(Point(400, 360, 10.0))
    ensures Align(FlowPoints(FiledBy(LATE_QUARTER, 480)), 480) == Some(Point(470, 450, 14.0))
  {
    ReportedQuarters();
    FinalSeries();
    hide FlowPoints, FlowSeries, ByFiled, Annuals, InSequence, Reported, FiledBy, Align;
    forall p ensures p in FlowPoints(LATE_QUARTER) <==> p in {Point(400, 360, 10.0), Point(500, 360, 10.0), Point(500, 450, 14.0)} {
      FinalPoint(p);
    }
    forall p ensures p in FlowPoints(LATE_QUARTER[..5]) <==> p in {Point(400, 360, 10.0), Point(470, 450, 14.0)} {
      KnownPoint(p);
    }
    AlignsTo(FlowPoints(LATE_QUARTER), 480, Point(400, 360, 10.0));
    AlignsTo(FlowPoints(LATE_QUARTER[..5]), 480, Point(470, 450, 14.0));
  }
}
