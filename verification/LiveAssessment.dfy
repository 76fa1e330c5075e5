/**
 What the risk check measures (research/service/engine.py:279-299), over every run: exposure and P&L are the books'
 totals, and the session's drawdown and each sleeve's are the falls from the highest figures assessed since the last
 resume, this assessment included.
 */
module LiveAssessment {
  import opened Reals
  import opened LiveControls
  import opened LiveEngine
  import opened LiveRisk

  function Pnls(rows: seq<Row>): seq<real> {
    seq(|rows|, i requires 0 <= i < |rows| => rows[i].pnl)
  }

  function Grosses(rows: seq<Row>): seq<real> {
    seq(|rows|, i requires 0 <= i < |rows| => rows[i].gross)
  }

  lemma {:induction false} TotalsAreSums(rows: seq<Row>)
    ensures TotalPnl(rows) == Sum(Pnls(rows)) && TotalGross(rows) == Sum(Grosses(rows))
  {
    if |rows| > 0 {
      var n := |rows| - 1;
      TotalsAreSums(rows[..n]);
      assert Pnls(rows)[..n] == Pnls(rows[..n]) && Grosses(rows)[..n] == Grosses(rows[..n]);
    }
  }

  /** The highest total P&L in these books. */
  ghost predicate IsHigh(high: real, seen: seq<seq<Row>>) {
    && (forall k :: 0 <= k < |seen| ==> Sum(Pnls(seen[k])) <= high)
    && (exists k :: 0 <= k < |seen| && Sum(Pnls(seen[k])) == high)
  }

  /** The sleeve is this row's, and fell so far from the highest P&L shown for it before or now. */
  ghost predicate Measures(v: Sleeve, r: Row, before: seq<seq<Row>>, books: seq<Row>) {
    var high := r.pnl - v.drawdown;
    && v.id == r.id && v.gross == r.gross && v.drawdown <= 0.0
    && (forall pnl :: Shown(before, r.id, pnl) ==> pnl <= high)
    && (Shown(before, r.id, high) || Lists(books, r.id, high))
  }

  /** The last row's sleeve, measured from the peaks raised over the rows before it. */
  function LastSleeve(peaks: map<Id, real>, init: seq<Row>, r: Row): Sleeve {
    Sleeve(r.id, r.pnl - Raise(PeakOf(RaiseAll(peaks, init), r.id), r.pnl), r.gross)
  }

  lemma SleevesNext(peaks: map<Id, real>, books: seq<Row>, n: nat)
    requires n < |books|
    ensures Sleeves(peaks, books[..n + 1]) == Sleeves(peaks, books[..n]) + [LastSleeve(peaks, books[..n], books[n])]
  {
    assert books[..n + 1][..n] == books[..n];
    hide RaiseAll;
  }

  lemma {:induction false} SleevesMeasure(peaks: map<Id, real>, before: seq<seq<Row>>, books: seq<Row>, n: nat)
    requires AreStrategyPeaks(peaks, before) && n <= |books|
    ensures |Sleeves(peaks, books[..n])| == n
    ensures forall j :: 0 <= j < n ==> Measures(Sleeves(peaks, books[..n])[j], books[j], before, books)
  {
    hide LastSleeve, Measures, AreStrategyPeaks, RaiseAll, Raise;
    if n > 0 {
      hide Sleeves;
      SleevesMeasure(peaks, before, books, n - 1);
      SleevesNext(peaks, books, n - 1);
      SleeveMeasures(peaks, before, books, n - 1);
    }
  }

  lemma SleeveMeasures(peaks: map<Id, real>, before: seq<seq<Row>>, books: seq<Row>, n: nat)
    requires AreStrategyPeaks(peaks, before) && n < |books|
    ensures Measures(LastSleeve(peaks, books[..n], books[n]), books[n], before, books)
  {
    hide RaiseAll, Shown, Lists;
    var r, high := books[n], RaiseAll(peaks, books[..n]);
    RaiseAllBounds(peaks, books[..n]);
    ListsAt(books, n);
    if r.id in high && Lists(books[..n], r.id, high[r.id]) {
      ListsLonger(books, n, r.id, high[r.id]);
    }
  }

  lemma ListsAt(books: seq<Row>, n: nat)
    requires n < |books|
    ensures Lists(books, books[n].id, books[n].pnl)
  {}

  lemma ListsLonger(books: seq<Row>, n: nat, id: Id, pnl: real)
    requires n <= |books| && Lists(books[..n], id, pnl)
    ensures Lists(books, id, pnl)
  {
    var j :| 0 <= j < n && books[..n][j].id == id && books[..n][j].pnl == pnl;
    assert books[j] == books[..n][j];
  }

  lemma SessionMeasured(peak: Option<real>, seen: seq<seq<Row>>, books: seq<Row>)
    requires IsSessionPeak(peak, seen)
    ensures IsHigh(Raise(peak, TotalPnl(books)), seen + [books])
  {
    SessionPeakRises(peak, seen, books);
    var more := seen + [books];
    hide TotalPnl, Raise, Sum;
    forall k | 0 <= k < |more| ensures TotalPnl(more[k]) == Sum(Pnls(more[k])) {
      TotalsAreSums(more[k]);
    }
  }

  /**
   Whenever the loop assesses, in any run: the drawdown is the fall from the highest total P&L assessed since the last
   resume, the exposure is the books' total, and there is one sleeve per row, measured the same way.
   */
  lemma DrawdownsAreFromTheHighs(acts: seq<Action>, registry: seq<Id>)
    ensures var s := Run(STOPPED, acts, registry);
      var a, books := Assess(s.ctl), s.ctl.books;
      && IsHigh(Sum(Pnls(books)) - a.drawdown, s.seen + [books])
      && a.gross == Sum(Grosses(books)) && a.armed == s.ctl.armed && |a.sleeves| == |books|
      && forall j :: 0 <= j < |books| ==> Measures(a.sleeves[j], books[j], s.seen, books)
  {
    hide Run, IsHigh, Measures, Sleeves, IsSessionPeak, AreStrategyPeaks, TotalPnl, TotalGross, Raise;
    var s := Run(STOPPED, acts, registry);
    PeaksAlwaysMaxima(acts, registry);
    TotalsAreSums(s.ctl.books);
    SessionMeasured(s.ctl.pnlPeak, s.seen, s.ctl.books);
    SleevesMeasure(s.ctl.stratPeak, s.seen, s.ctl.books, |s.ctl.books|);
    assert s.ctl.books[..|s.ctl.books|] == s.ctl.books;
  }
}
