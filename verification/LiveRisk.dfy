/**
 The risk limits of the live engine over every interleaving (research/service/engine.py:202-339): peaks are running
 maxima, entries respect the gross cap, and no strategy's order leaves a cycle whose assessed books breach a
 drawdown limit unless that strategy was armed since the assessment.
 */
module LiveRisk {
  import opened Reals
  import opened LiveControls
  import opened LiveEngine

  // ------------------------------------------------------------------------------------- peaks

  /** Some assessed book showed this strategy at this P&L. */
  ghost predicate Shown(seen: seq<seq<Row>>, id: Id, pnl: real) {
    exists k :: 0 <= k < |seen| && Lists(seen[k], id, pnl)
  }

  ghost predicate Lists(rows: seq<Row>, id: Id, pnl: real) {
    exists j :: 0 <= j < |rows| && rows[j].id == id && rows[j].pnl == pnl
  }

  /** The session mark is attained by some assessed book and exceeded by none. */
  ghost predicate IsSessionPeak(peak: Option<real>, seen: seq<seq<Row>>) {
    && (peak.None? <==> seen == [])
    && (peak.Some? ==> forall k :: 0 <= k < |seen| ==> TotalPnl(seen[k]) <= peak.value)
    && (peak.Some? ==> exists k :: 0 <= k < |seen| && TotalPnl(seen[k]) == peak.value)
  }

  /** Exactly the strategies shown have a mark, attained by some row and exceeded by none. */
  ghost predicate AreStrategyPeaks(peaks: map<Id, real>, seen: seq<seq<Row>>) {
    && (forall id, pnl :: Shown(seen, id, pnl) ==> id in peaks && pnl <= peaks[id])
    && (forall id :: id in peaks ==> Shown(seen, id, peaks[id]))
  }

  ghost predicate PeaksAreMaxima(s: Engine) {
    IsSessionPeak(s.ctl.pnlPeak, s.seen) && AreStrategyPeaks(s.ctl.stratPeak, s.seen)
  }

  /** Raising the marks over a book keeps them attained and makes them bound its rows too. */
  lemma {:induction false} RaiseAllBounds(peaks: map<Id, real>, rows: seq<Row>)
    ensures forall id :: id in peaks ==> id in RaiseAll(peaks, rows) && peaks[id] <= RaiseAll(peaks, rows)[id]
    ensures forall id, pnl :: Lists(rows, id, pnl) ==> id in RaiseAll(peaks, rows) && pnl <= RaiseAll(peaks, rows)[id]
    ensures forall id :: id in RaiseAll(peaks, rows) ==>
              (id in peaks && RaiseAll(peaks, rows)[id] == peaks[id]) || Lists(rows, id, RaiseAll(peaks, rows)[id])
  {
    if |rows| > 0 {
      var init, r := rows[..|rows| - 1], rows[|rows| - 1];
      RaiseAllBounds(peaks, init);
      forall id, pnl ensures Lists(rows, id, pnl) <==> Lists(init, id, pnl) || (r.id == id && r.pnl == pnl) {
        ListsSnoc(init, r, id, pnl);
        assert rows == init + [r];
      }
    }
  }

  lemma ListsSnoc(init: seq<Row>, r: Row, id: Id, pnl: real)
    ensures Lists(init + [r], id, pnl) <==> Lists(init, id, pnl) || (r.id == id && r.pnl == pnl)
  {
    var rows := init + [r];
    if Lists(init, id, pnl) {
      var j :| 0 <= j < |init| && init[j].id == id && init[j].pnl == pnl;
      assert rows[j] == init[j];
    }
    if r.id == id && r.pnl == pnl {
      assert rows[|init|] == r;
    }
  }

  lemma ShownSnoc(seen: seq<seq<Row>>, rows: seq<Row>, id: Id, pnl: real)
    ensures Shown(seen + [rows], id, pnl) <==> Shown(seen, id, pnl) || Lists(rows, id, pnl)
  {
    var more := seen + [rows];
    if Shown(seen, id, pnl) {
      var k :| 0 <= k < |seen| && Lists(seen[k], id, pnl);
      assert more[k] == seen[k];
    }
    if Lists(rows, id, pnl) {
      assert more[|seen|] == rows;
    }
  }

  lemma SessionPeakRises(peak: Option<real>, seen: seq<seq<Row>>, rows: seq<Row>)
    requires IsSessionPeak(peak, seen)
    ensures IsSessionPeak(Some(Raise(peak, TotalPnl(rows))), seen + [rows])
  {
    hide TotalPnl;
    var more := seen + [rows];
    assert more[|seen|] == rows;
    if peak.Some? {
      var k :| 0 <= k < |seen| && TotalPnl(seen[k]) == peak.value;
      assert more[k] == seen[k];
    }
  }

  lemma StrategyPeaksRise(peaks: map<Id, real>, seen: seq<seq<Row>>, rows: seq<Row>)
    requires AreStrategyPeaks(peaks, seen)
    ensures AreStrategyPeaks(RaiseAll(peaks, rows), seen + [rows])
  {
    hide RaiseAll, Shown, Lists;
    RaiseAllBounds(peaks, rows);
    forall id, pnl ensures Shown(seen + [rows], id, pnl) <==> Shown(seen, id, pnl) || Lists(rows, id, pnl) {
      ShownSnoc(seen, rows, id, pnl);
    }
  }

  /** The marks stay, are cleared with what was seen, or are raised over the books assessed. */
  ghost predicate SameMarks(s: Engine, s': Engine) {
    s'.seen == s.seen && s'.ctl.pnlPeak == s.ctl.pnlPeak && s'.ctl.stratPeak == s.ctl.stratPeak
  }

  ghost predicate NoMarksLeft(s': Engine) {
    s'.seen == [] && s'.ctl.pnlPeak == None && s'.ctl.stratPeak == map[]
  }

  ghost predicate RaisedMarks(s: Engine, s': Engine) {
    && s'.seen == s.seen + [s.ctl.books] && s'.ctl.pnlPeak == Some(Raise(s.ctl.pnlPeak, TotalPnl(s.ctl.books)))
    && s'.ctl.stratPeak == RaiseAll(s.ctl.stratPeak, s.ctl.books)
  }

  lemma TurnMarks(s: Engine, e: Env, id: Id, c: Closing)
    ensures SameMarks(s, TakeTurn(s, e, id, c).0)
  {
    hide NextSeq, ToClose;
  }

  lemma RiskMarks(s: Engine, e: Env, registry: seq<Id>)
    ensures SameMarks(s, Risk(s, e, registry)) || RaisedMarks(s, Risk(s, e, registry))
  {
    hide Assess, Breach, Bleeding, NextSeq, TotalPnl, RaiseAll, Raise, TakeTurn;
    if s.pc.Flattening? && s.pc.todo != [] {
      TurnMarks(s, e, s.pc.todo[0], s.pc.c);
    }
    if s.pc.ToStop? && s.pc.stop != [] {
      TurnMarks(s, e, s.pc.stop[0], s.pc.c);
    }
  }

  lemma PassMarks(s: Engine, e: Env)
    ensures SameMarks(s, Pass(s, e))
  {
    hide Intent, SleeveDrawdown, Admit, Sum, NextSeq, Spend;
  }

  /** A step changes the marks only by resuming, which clears them, or by assessing, which raises them. */
  lemma StepMarks(s: Engine, act: Action, registry: seq<Id>)
    ensures var s' := Do(s, act, registry); SameMarks(s, s') || NoMarksLeft(s') || RaisedMarks(s, s')
  {
    hide Risk, Pass, CoversRegistry, NextSeq, RaisedMarks;
    if act.Tick? {
      RiskMarks(s, act.env, registry);
      PassMarks(s, act.env);
    }
  }

  lemma StepKeepsPeaks(s: Engine, act: Action, registry: seq<Id>)
    requires PeaksAreMaxima(s)
    ensures PeaksAreMaxima(Do(s, act, registry))
  {
    hide Do, TotalPnl, RaiseAll, Raise, IsSessionPeak, AreStrategyPeaks;
    StepMarks(s, act, registry);
    SessionPeakRises(s.ctl.pnlPeak, s.seen, s.ctl.books);
    StrategyPeaksRise(s.ctl.stratPeak, s.seen, s.ctl.books);
    NoMarks();
  }

  lemma NoMarks()
    ensures IsSessionPeak(None, []) && AreStrategyPeaks(map[], [])
  {}

  /**
   At every moment the high-water marks are the maxima of everything assessed since the last resume: the
   session's over whole books, and each strategy's over its own rows.
   */
  lemma {:induction false} PeaksAlwaysMaxima(acts: seq<Action>, registry: seq<Id>)
    ensures PeaksAreMaxima(Run(STOPPED, acts, registry))
  {
    if |acts| == 0 {
      NoMarks();
    } else {
      hide PeaksAreMaxima;
      PeaksAlwaysMaxima(acts[..|acts| - 1], registry);
      StepKeepsPeaks(Run(STOPPED, acts[..|acts| - 1], registry), acts[|acts| - 1], registry);
    }
  }

  // ---------------------------------------------------------------------------------- gross cap

  ghost predicate ExposureSound(x: Exposure) {
    Sum(AbsAll(x.weights)) <= x.gross <= Max(Sum(AbsAll(x.start)), MAX_GROSS_USD)
  }

  ghost predicate PassSound(s: Engine) {
    match s.pc
    case Trading(_, x, _) => ExposureSound(x)
    case Considering(_, x, _) => ExposureSound(x)
    case Submitting(_, x, _, order) =>
      ExposureSound(x)
      && (order.kind == Entry ==> order.value >= MIN_ORDER_USD && x.gross + order.value <= MAX_GROSS_USD)
    case _ => true
  }

  lemma SpendSound(x: Exposure, order: Order)
    requires ExposureSound(x) && (order.kind == Entry ==> order.value >= 0.0 && x.gross + order.value <= MAX_GROSS_USD)
    ensures ExposureSound(Spend(x, order))
  {
    var sym := order.sym;
    if order.kind == Entry && sym < |x.weights| {
      var w := x.weights[sym] + order.value;
      assert AbsAll(x.weights[sym := w]) == AbsAll(x.weights)[sym := Abs(w)];
      SumUpdate(AbsAll(x.weights), sym, Abs(w));
    }
  }

  /** Whatever is submitted as an entry was sized within the cap left when it was considered. */
  lemma EntryWithinCap(q: Quote, gross: real)
    requires Intent(q, gross) == Some(Entry)
    ensures q.qty * q.price >= MIN_ORDER_USD && gross + q.qty * q.price <= MAX_GROSS_USD
  {}

  lemma StepKeepsPassSound(s: Engine, act: Action, registry: seq<Id>)
    requires PassSound(s)
    ensures PassSound(Do(s, act, registry))
  {
    hide Assess, Breach, Bleeding, NextSeq, Intent, SleeveDrawdown, Admit, CoversRegistry, Spend, Sum, AbsAll;
    if act.Tick? {
      if s.pc.Submitting? {
        SpendSound(s.pc.x, s.pc.order);
      }
      if s.pc.Considering? && act.env.quote.Some? && Intent(act.env.quote.value, s.pc.x.gross) == Some(Entry) {
        EntryWithinCap(act.env.quote.value, s.pc.x.gross);
      }
    }
  }

  /** Within every trading pass the estimated exposure never exceeds the cap, or what it started at. */
  lemma {:induction false} GrossStaysCapped(acts: seq<Action>, registry: seq<Id>)
    ensures PassSound(Run(STOPPED, acts, registry))
  {
    if |acts| > 0 {
      GrossStaysCapped(acts[..|acts| - 1], registry);
      StepKeepsPassSound(Run(STOPPED, acts[..|acts| - 1], registry), acts[|acts| - 1], registry);
    }
  }

  // ------------------------------------------------------------------------------- drawdown limits

  /** The cycle's assessment, once it has one and has not breached the session limit. */
  function Cleared(pc: Pc): Option<Assessment> {
    match pc
    case ToStop(a, _, _, _) => Some(a)
    case ToDisarm(a, _, _) => Some(a)
    case ToClear(a, _) => Some(a)
    case ToGate(a, _) => Some(a)
    case ToTrade(a, _) => Some(a)
    case Trading(a, _, _) => Some(a)
    case Considering(a, _, _) => Some(a)
    case Submitting(a, _, _, _) => Some(a)
    case _ => None
  }

  /** Sleeves still to be disarmed. */
  function Pending(pc: Pc): seq<Id> {
    match pc
    case ToStop(_, stop, _, _) => stop
    case ToDisarm(_, stop, _) => stop
    case _ => []
  }

  /** The order was sent in a cycle whose books were within both limits. */
  ghost predicate WithinLimits(o: Order) {
    o.drawdown > -750.0 && o.sleeveDrawdown.Some? && o.sleeveDrawdown.value > -400.0
  }

  ghost predicate Assesses(a: Assessment, registry: seq<Id>) {
    IdsOf(registry) == set v | v in a.sleeves :: v.id
  }

  /** What holds at every moment of a cycle that is past its session check. */
  ghost predicate CycleSound(s: Engine, registry: seq<Id>) {
    && (forall id :: id in s.ctl.armed ==> id in registry)
    && (s.pc.ToAssess? ==> CoversRegistry(s.ctl.books, registry))
    && (Cleared(s.pc).Some? ==>
          var a := Cleared(s.pc).value;
          && !Breach(a) && Assesses(a, registry)
          && s.ctl.armed <= a.armed + s.late
          && (forall v :: v in a.sleeves && SleeveBreach(a, v) ==>
                v.id in Pending(s.pc) || v.id !in s.ctl.armed || v.id in s.late))
    && (s.pc.Submitting? ==> s.pc.order.kind != Close && (!s.pc.order.late ==> WithinLimits(s.pc.order)))
  }

  ghost predicate OrdersSound(s: Engine) {
    forall o :: o in s.sent && o.kind != Close && !o.late ==> WithinLimits(o)
  }

  lemma {:induction false} BleedingMembers(a: Assessment, sleeves: seq<Sleeve>)
    ensures forall v :: v in sleeves && SleeveBreach(a, v) ==> v.id in Bleeding(a, sleeves)
  {
    if |sleeves| > 0 {
      BleedingMembers(a, sleeves[1..]);
      forall v | v in sleeves && SleeveBreach(a, v) ensures v.id in Bleeding(a, sleeves) {
        assert v == sleeves[0] || v in sleeves[1..];
      }
    }
  }

  lemma {:induction false} SleevesCover(peaks: map<Id, real>, books: seq<Row>)
    ensures (set v | v in Sleeves(peaks, books) :: v.id) == (set r | r in books :: r.id)
  {
    if |books| > 0 {
      var init, r := books[..|books| - 1], books[|books| - 1];
      SleevesCover(peaks, init);
      assert books == init + [r];
      var sleeves, rest := Sleeves(peaks, books), Sleeves(peaks, init);
      assert forall v :: v in sleeves <==> v in rest || v == sleeves[|rest|];
      assert sleeves[|rest|].id == r.id;
      assert (set v | v in sleeves :: v.id) == (set v | v in rest :: v.id) + {r.id};
      assert (set q | q in books :: q.id) == (set q | q in init :: q.id) + {r.id};
    }
  }

  lemma {:induction false} FindSleeve(sleeves: seq<Sleeve>, id: Id) returns (v: Sleeve)
    requires exists u :: u in sleeves && u.id == id
    ensures v in sleeves && v.id == id && SleeveDrawdown(sleeves, id) == Some(v.drawdown)
  {
    if sleeves[0].id == id {
      v := sleeves[0];
    } else {
      var u :| u in sleeves && u.id == id;
      assert u in sleeves[1..];
      v := FindSleeve(sleeves[1..], id);
    }
  }

  lemma Covered(a: Assessment, registry: seq<Id>, id: Id)
    requires Assesses(a, registry) && id in registry
    ensures exists u :: u in a.sleeves && u.id == id
  {
    assert id in (set v | v in a.sleeves :: v.id);
  }

  /** The heart of the matter: a strategy armed since before the assessment is within both limits. */
  lemma ArmedWithinLimits(s: Engine, registry: seq<Id>, id: Id)
    requires CycleSound(s, registry) && s.pc.Considering? && id in s.ctl.armed && id !in s.late
    ensures s.pc.a.drawdown > -MAX_SESSION_DRAWDOWN_USD
    ensures var d := SleeveDrawdown(s.pc.a.sleeves, id); d.Some? && d.value > -MAX_STRATEGY_DRAWDOWN_USD
  {
    var a := s.pc.a;
    assert id in a.armed;
    assert id in registry;
    Covered(a, registry, id);
    assert exists u :: u in a.sleeves && u.id == id;
    var v := FindSleeve(a.sleeves, id);
    assert !SleeveBreach(a, v);
  }

  lemma AssessSound(s: Engine, e: Env, registry: seq<Id>)
    requires CycleSound(s, registry) && s.pc.ToAssess?
    ensures CycleSound(Risk(s, e, registry), registry)
  {
    var a := Assess(s.ctl);
    SleevesCover(s.ctl.stratPeak, s.ctl.books);
    BleedingMembers(a, a.sleeves);
    hide SleeveBreach, Breach, Bleeding, Sleeves, TotalPnl, TotalGross, Raise, RaiseAll;
  }

  lemma TurnSound(s: Engine, e: Env, id: Id, c: Closing)
    ensures var s' := TakeTurn(s, e, id, c).0; s'.ctl == s.ctl && s'.late == s.late && s'.pc == s.pc
  {
    hide NextSeq, ToClose;
  }

  lemma RiskSound(s: Engine, e: Env, registry: seq<Id>)
    requires CycleSound(s, registry) && !s.pc.ToAssess?
    ensures CycleSound(Risk(s, e, registry), registry)
  {
    hide SleeveBreach, Breach, Bleeding, Assess, TakeTurn, CoversRegistry, Assesses, WithinLimits, TotalPnl, RaiseAll, Raise;
    if s.pc.ToStop? && s.pc.stop != [] {
      TurnSound(s, e, s.pc.stop[0], s.pc.c);
    }
    if s.pc.Flattening? && s.pc.todo != [] {
      TurnSound(s, e, s.pc.todo[0], s.pc.c);
    }
    if s.pc.ToDisarm? && s.pc.stop != [] {
      var stop := s.pc.stop;
      assert forall id :: id in stop ==> id == stop[0] || id in stop[1..];
    }
  }

  lemma PassKeepsCycle(s: Engine, e: Env, registry: seq<Id>)
    requires CycleSound(s, registry)
    ensures CycleSound(Pass(s, e), registry)
  {
    hide SleeveBreach, Breach, NextSeq, CoversRegistry, Assesses, Intent, Spend, Sum, AbsAll, Admit, SleeveDrawdown;
    if s.pc.Considering? && s.pc.work != [] && s.pc.work[0].id in s.ctl.armed && s.pc.work[0].id !in s.late {
      ArmedWithinLimits(s, registry, s.pc.work[0].id);
    }
    if e.quote.Some? && s.pc.Considering? {
      IntentIsTrade(e.quote.value, s.pc.x.gross);
    }
  }

  lemma IntentIsTrade(q: Quote, gross: real)
    ensures Intent(q, gross) != Some(Close)
  {}

  lemma StepKeepsCycle(s: Engine, act: Action, registry: seq<Id>)
    requires CycleSound(s, registry)
    ensures CycleSound(Do(s, act, registry), registry)
  {
    hide SleeveBreach, Breach, CoversRegistry, Assesses, WithinLimits, Risk, Pass, NextSeq;
    if act.Tick? {
      if s.pc.ToAssess? {
        AssessSound(s, act.env, registry);
      } else {
        RiskSound(s, act.env, registry);
      }
      PassKeepsCycle(s, act.env, registry);
    }
  }

  lemma StepKeepsOrders(s: Engine, act: Action, registry: seq<Id>)
    requires CycleSound(s, registry) && OrdersSound(s)
    ensures OrdersSound(Do(s, act, registry))
  {
    hide Do;
    StepShape(s, act, registry);
    var s' := Do(s, act, registry);
    if s'.sent != s.sent {
      var n := |s.sent|;
      assert s'.sent == s.sent + [s'.sent[n]];
    }
  }

  /**
   No order from a breached cycle: under every interleaving, each entry and exit was checked in a cycle whose
   assessed books showed a session drawdown above -750 and that sleeve's above -400, unless that very strategy
   had been armed since the assessment.
   */
  lemma {:induction false} OrdersRespectDrawdownLimits(acts: seq<Action>, registry: seq<Id>)
    ensures CycleSound(Run(STOPPED, acts, registry), registry) && OrdersSound(Run(STOPPED, acts, registry))
  {
    if |acts| > 0 {
      OrdersRespectDrawdownLimits(acts[..|acts| - 1], registry);
      var s := Run(STOPPED, acts[..|acts| - 1], registry);
      StepKeepsCycle(s, acts[|acts| - 1], registry);
      StepKeepsOrders(s, acts[|acts| - 1], registry);
    }
  }

  /** A quiet environment for one step; each step of the example below changes what it needs. */
  const QUIET := Env(None, [0.0], [], None, None, true, 0)

  lemma OneRow(id: Id, pnl: real)
    ensures TotalPnl([Row(id, pnl, 0.0)]) == pnl && TotalGross([Row(id, pnl, 0.0)]) == 0.0
  {
    var books := [Row(id, pnl, 0.0)];
    assert books[..|books| - 1] == [];
  }

  lemma OneSleeve(peaks: map<Id, real>, id: Id, pnl: real)
    ensures var books := [Row(id, pnl, 0.0)];
      && Sleeves(peaks, books) == [Sleeve(id, pnl - Raise(PeakOf(peaks, id), pnl), 0.0)]
      && RaiseAll(peaks, books) == peaks[id := Raise(PeakOf(peaks, id), pnl)]
  {
    var books := [Row(id, pnl, 0.0)];
    assert books[..|books| - 1] == [];
    assert Sleeves(peaks, []) == [] && RaiseAll(peaks, []) == peaks;
  }

  lemma {:induction false} RunAppend(s: Engine, acts: seq<Action>, more: seq<Action>, registry: seq<Id>)
    ensures Run(s, acts + more, registry) == Run(Run(s, acts, registry), more, registry)
  {
    if |more| == 0 {
      assert acts + more == acts;
    } else {
      assert (acts + more)[..|acts + more| - 1] == acts + more[..|more| - 1];
      RunAppend(s, acts, more[..|more| - 1], registry);
    }
  }

  lemma RunOne(s: Engine, acts: seq<Action>, act: Action, registry: seq<Id>)
    ensures Run(s, acts + [act], registry) == Do(Run(s, acts, registry), act, registry)
  {
    assert (acts + [act])[..|acts|] == acts;
  }

  /** A cycle that assesses one flat, disarmed strategy: the marks are raised and nothing is stopped. */
  lemma AssessFlat(s: Engine, id: Id, pnl: real)
    requires s.pc == ToAssess([0.0]) && s.ctl.books == [Row(id, pnl, 0.0)] && s.ctl.armed == {}
    ensures var s' := Risk(s, QUIET, [id]);
      s'.pc.ToStop? && s'.pc.stop == [] && s'.pc.weights == [0.0] && s'.sent == s.sent
      && s'.pc.a.drawdown == pnl - Raise(s.ctl.pnlPeak, pnl)
      && s'.ctl == s.ctl.(pnlPeak := Some(Raise(s.ctl.pnlPeak, pnl)), stratPeak := s'.ctl.stratPeak)
  {
    OneRow(id, pnl);
    OneSleeve(s.ctl.stratPeak, id, pnl);
    var a := Assess(s.ctl);
    assert Bleeding(a, a.sleeves) == [] by {
      assert a.sleeves[1..] == [];
    }
  }

  lemma RunFour(s: Engine, a: Action, b: Action, c: Action, d: Action, registry: seq<Id>)
    ensures Run(s, [a, b, c, d], registry) == Do(Do(Do(Do(s, a, registry), b, registry), c, registry), d, registry)
  {
    hide Do;
    assert Run(s, [], registry) == s;
    RunOne(s, [], a, registry);
    RunOne(s, [a], b, registry);
    RunOne(s, [a, b], c, registry);
    RunOne(s, [a, b, c], d, registry);
    assert [] + [a] == [a] && [a] + [b] == [a, b] && [a, b] + [c] == [a, b, c] && [a, b, c] + [d] == [a, b, c, d];
  }

  /** A signal that has just flipped to long, for the smallest order. */
  const LONG := Quote(1, 0.0, 1.0, MIN_ORDER_USD, true, 0.0)

  function GateEnv(id: Id): Env {
    QUIET.(work := [Item(id, 0)])
  }

  /** The pass of an armed strategy whose signal just flipped to long, up to its last check. */
  lemma ReachesSubmit(s: Engine, id: Id)
    requires s.pc.ToTrade? && HasRoom(s.pc.weights) && id in s.ctl.armed && !s.ctl.kill
    ensures var s' := Pass(Pass(Pass(s, GateEnv(id)), QUIET), QUIET.(quote := Some(LONG)));
      && s'.pc.Submitting? && s'.drawn == s.drawn && s'.sent == s.sent
      && s'.pc.order == Order(Entry, id, 0, MIN_ORDER_USD, 0, s.cycle, s.pc.a.drawdown, SleeveDrawdown(s.pc.a.sleeves, id), id in s.late)
  {
    var n := |s.pc.weights|;
    assert [Item(id, 0)][1..] == [];
    assert Admit([Item(id, 0)], s.ctl.armed, n) == [Item(id, 0)];
    assert Intent(LONG, Sum(AbsAll(s.pc.weights))) == Some(Entry);
    hide SleeveDrawdown, Sum, AbsAll, Intent, Admit;
  }

  /** The last order sent is an entry of this strategy, checked at these drawdowns after a late arm. */
  ghost predicate LastIsLate(s: Engine, id: Id, drawdown: real, sleeveDrawdown: Option<real>) {
    && |s.sent| > 0
    && var o := s.sent[|s.sent| - 1];
       o.kind == Entry && o.id == id && o.drawdown == drawdown && o.sleeveDrawdown == sleeveDrawdown && o.late
  }

  /** One symbol and exposure enough left for the smallest order. */
  predicate HasRoom(weights: seq<real>) {
    |weights| > 0 && Sum(AbsAll(weights)) + MIN_ORDER_USD <= MAX_GROSS_USD
  }

  lemma {:induction false} RunSteps(s: Engine, acts: seq<Action>, act: Action, registry: seq<Id>)
    ensures Run(s, [act] + acts, registry) == Run(Do(s, act, registry), acts, registry)
  {
    hide Do;
    RunAppend(s, [act], acts, registry);
    assert Run(s, [], registry) == s;
    RunOne(s, [], act, registry);
    assert [] + [act] == [act];
  }

  lemma SubmitsOnce(s: Engine, id: Id, registry: seq<Id>) returns (acts: seq<Action>)
    requires s.pc.Submitting?
    ensures var sent := Run(s, acts, registry).sent;
      sent != [] && exists n :: sent[|sent| - 1] == s.pc.order.(seqNo := n)
  {
    var tick := Tick(QUIET);
    assert forall r: Engine :: Run(r, [], registry) == r;
    RunSteps(s, [], tick, registry);
    RunSteps(s, [tick], tick, registry);
    RunSteps(Do(s, tick, registry), [], tick, registry);
    assert [tick] + [] == [tick] && [tick] + [tick] == [tick, tick];
    acts := if s.drawn.None? then [tick, tick] else [tick];
    var sent := Run(s, acts, registry).sent;
    var n := if s.drawn.None? then Do(s, tick, registry).lastSeq else s.drawn.value;
    assert sent[|sent| - 1] == s.pc.order.(seqNo := n);
  }

  lemma TradesFromPass(s: Engine, id: Id, registry: seq<Id>) returns (acts: seq<Action>)
    requires s.pc.ToTrade? && HasRoom(s.pc.weights) && id in s.ctl.armed && !s.ctl.kill && id in s.late
    ensures LastIsLate(Run(s, acts, registry), id, s.pc.a.drawdown, SleeveDrawdown(s.pc.a.sleeves, id))
  {
    ReachesSubmit(s, id);
    var a, b, c := Tick(GateEnv(id)), Tick(QUIET), Tick(QUIET.(quote := Some(LONG)));
    var s1 := Pass(s, a.env);
    var s2 := Pass(s1, b.env);
    var s3 := Pass(s2, c.env);
    assert s1.pc.Trading? && s2.pc.Considering?;
    assert Do(s, a, registry) == s1 && Do(s1, b, registry) == s2 && Do(s2, c, registry) == s3;
    var rest := SubmitsOnce(s3, id, registry);
    hide *;
    RunSteps(s2, rest, c, registry);
    RunSteps(s1, [c] + rest, b, registry);
    RunSteps(s, [b] + ([c] + rest), a, registry);
    acts := [a] + ([b] + ([c] + rest));
    LateOrder(Run(s, acts, registry), s3.pc.order, id);
  }

  lemma LateOrder(s: Engine, o: Order, id: Id)
    requires s.sent != [] && exists n :: s.sent[|s.sent| - 1] == o.(seqNo := n)
    requires o.kind == Entry && o.id == id && o.late
    ensures LastIsLate(s, id, o.drawdown, o.sleeveDrawdown)
  {}

  /**
   The exception is real, at every drawdown: from any state at the gate or about to trade, whatever the cycle
   has assessed, arming a registered strategy lets it enter a position in that cycle, if the exposure cap
   leaves room.
   */
  lemma LateArmTrades(s: Engine, id: Id, registry: seq<Id>) returns (acts: seq<Action>)
    requires s.pc.ToGate? || s.pc.ToTrade?
    requires !s.ctl.kill && id in registry && HasRoom(s.pc.weights)
    ensures LastIsLate(Run(s, acts, registry), id, s.pc.a.drawdown, SleeveDrawdown(s.pc.a.sleeves, id))
  {
    var arm, gate := ApiArm(id), Tick(QUIET);
    var s1 := Do(s, arm, registry);
    var s2 := if s1.pc.ToGate? then Do(s1, gate, registry) else s1;
    var pass := TradesFromPass(s2, id, registry);
    var rest := if s1.pc.ToGate? then [gate] + pass else pass;
    hide *;
    RunSteps(s1, pass, gate, registry);
    RunSteps(s, rest, arm, registry);
    acts := [arm] + rest;
  }

  /** A full quiet cycle of one flat, disarmed strategy up to the gate. */
  ghost predicate AtGate(s: Engine, s': Engine, pnl: real) {
    && s'.pc.ToGate? && s'.pc.weights == [0.0] && s'.pc.a.drawdown == pnl - Raise(s.ctl.pnlPeak, pnl)
    && s'.ctl.armed == {} && s'.ctl.kill == s.ctl.kill && s'.ctl.pnlPeak == Some(Raise(s.ctl.pnlPeak, pnl))
  }

  lemma QuietCycle(s: Engine, id: Id, pnl: real) returns (acts: seq<Action>)
    requires s.pc == Idle && s.ctl.armed == {}
    ensures AtGate(s, Run(s, acts, [id]), pnl)
  {
    var rows := [Row(id, pnl, 0.0)];
    var refresh, tick := Tick(QUIET.(rows := Some(rows))), Tick(QUIET);
    assert CoversRegistry(rows, [id]) by {
      assert rows[0] in rows;
      assert forall r :: r in rows <==> r == rows[0];
    }
    var s1 := Do(s, refresh, [id]);
    AssessFlat(s1, id, pnl);
    acts := [refresh, tick, tick, tick];
    RunFour(s, refresh, tick, tick, tick, [id]);
    hide Assess, Breach, Bleeding, TotalPnl, Raise, RaiseAll;
    var s2 := Risk(s1, QUIET, [id]);
    assert Do(s1, tick, [id]) == s2;
    assert Do(Do(s2, tick, [id]), tick, [id]) == s2.(pc := ToGate(s2.pc.a, [0.0]), ctl := s2.ctl.(riskHalt := false));
  }

  /**
   Such states are reached. Let a flat engine fall 800 behind its peak: nothing is armed and nothing is held, so
   the check passes, and a strategy armed before the cycle reaches its gate enters a position in a cycle that
   knows the session drawdown to be beyond the limit.
   */
  lemma ArmingMidCycleSlipsThrough(id: Id) returns (acts: seq<Action>, sleeveDrawdown: Option<real>)
    ensures LastIsLate(Run(STOPPED, acts, [id]), id, -800.0, sleeveDrawdown) && -800.0 <= -MAX_SESSION_DRAWDOWN_USD
  {
    var registry, gate := [id], Tick(QUIET);
    var first := QuietCycle(STOPPED, id, 0.0);
    var s1 := Run(STOPPED, first, registry);
    var s2 := Do(s1, gate, registry);
    assert s2.pc == Idle && s2.ctl == s1.ctl;
    var second := QuietCycle(s2, id, -800.0);
    var s3 := Run(s2, second, registry);
    assert s3.pc.a.drawdown == -800.0;
    FlatHasRoom();
    var third := LateArmTrades(s3, id, registry);
    sleeveDrawdown := SleeveDrawdown(s3.pc.a.sleeves, id);
    acts := first + [gate] + second + third;
    hide *;
    RunOne(STOPPED, first, gate, registry);
    RunAppend(STOPPED, first + [gate], second, registry);
    RunAppend(STOPPED, first + [gate] + second, third, registry);
  }

  lemma FlatHasRoom()
    ensures HasRoom([0.0])
  {
    assert AbsAll([0.0])[..0] == [];
  }

  // --------------------------------------------------------------------------------- halting

  /** A risk halt, finished or under way past its first step, has the kill engaged. */
  ghost predicate HaltMeansKill(s: Engine) {
    s.ctl.riskHalt || s.pc.Flattening? || s.pc.ToHalt? ==> s.ctl.kill
  }

  lemma StepKeepsHalt(s: Engine, act: Action, registry: seq<Id>)
    requires HaltMeansKill(s) && (act == ApiResume ==> !s.pc.Flattening? && !s.pc.ToHalt?)
    ensures HaltMeansKill(Do(s, act, registry))
  {
    hide Assess, Breach, Bleeding, NextSeq, TotalPnl, RaiseAll, Raise, Intent, SleeveDrawdown, Admit, Sum, CoversRegistry, Spend;
  }

  /** A risk halt is under way: its kill is done and its flag is not set yet. */
  predicate MidHalt(pc: Pc) {
    pc.Flattening? || pc.ToHalt?
  }

  /** No resume of this run lands in the middle of a risk halt. */
  ghost predicate ResumesBetweenHalts(acts: seq<Action>, registry: seq<Id>) {
    forall k :: 0 <= k < |acts| && acts[k] == ApiResume ==> !MidHalt(Run(STOPPED, acts[..k], registry).pc)
  }

  /**
   A risk halt comes with the latched kill, at every moment of every run, whatever is resumed between halts: the
   loop never halts halfway.
   */
  lemma {:induction false} RiskHaltIsLatched(acts: seq<Action>, registry: seq<Id>)
    requires ResumesBetweenHalts(acts, registry)
    ensures HaltMeansKill(Run(STOPPED, acts, registry))
  {
    if |acts| > 0 {
      hide Do;
      var n := |acts| - 1;
      assert ResumesBetweenHalts(acts[..n], registry) by {
        forall k | 0 <= k < n && acts[..n][k] == ApiResume ensures !MidHalt(Run(STOPPED, acts[..n][..k], registry).pc) {
          assert acts[..n][..k] == acts[..k] && acts[k] == ApiResume;
        }
      }
      RiskHaltIsLatched(acts[..n], registry);
      StepKeepsHalt(Run(STOPPED, acts[..n], registry), acts[n], registry);
    }
  }

  /** From the middle of a halt the loop's own steps, on quiet terms, go on to set the flag. */
  lemma MidHaltEnds(s: Engine, registry: seq<Id>) returns (acts: seq<Action>)
    requires MidHalt(s.pc)
    ensures var s' := Run(s, acts, registry); s'.pc.Idle? && s'.ctl == s.ctl.(riskHalt := true)
    decreases if s.pc.ToHalt? then 0 else 1 + |s.pc.todo|, TurnLeft(s.pc, s.drawn)
  {
    var tick := Tick(QUIET);
    var next := Do(s, tick, registry);
    QuietHalt(s, registry);
    hide Do;
    if next.pc.Idle? {
      acts := [];
      assert Run(next, acts, registry) == next;
    } else {
      acts := MidHaltEnds(next, registry);
    }
    RunSteps(s, acts, tick, registry);
    acts := [tick] + acts;
  }

  lemma QuietHalt(s: Engine, registry: seq<Id>)
    requires MidHalt(s.pc)
    ensures var s' := Do(s, Tick(QUIET), registry);
      if s.pc.ToHalt? then s'.pc.Idle? && s'.ctl == s.ctl.(riskHalt := true)
      else s'.ctl == s.ctl && HaltAdvances(s, s')
  {
    hide Pass, Refresh, Assess, Assessed, Breach, Bleeding, NextSeq, ToClose;
  }

  /** Steps left in the turn under way. */
  function TurnLeft(pc: Pc, drawn: Option<nat>): nat {
    if !pc.Flattening? || pc.c.NotRead? then 0
    else
      var todo, k := |ToClose(pc.c.holdings)|, |pc.c.closes|;
      if k >= todo then 0 else 2 * (todo - k) + if drawn.None? then 1 else 0
  }

  /** One more turn is over, or the turn under way has got on. */
  ghost predicate HaltAdvances(s: Engine, s': Engine)
    requires s.pc.Flattening?
  {
    || s'.pc.ToHalt?
    || (s'.pc.Flattening? && |s'.pc.todo| < |s.pc.todo|)
    || (s'.pc.Flattening? && s'.pc.todo == s.pc.todo && TurnLeft(s'.pc, s'.drawn) < TurnLeft(s.pc, s.drawn))
  }

  /**
   A resume in the middle of a halt loses the kill: from every such state the loop goes on to flag a risk halt
   with the kill released.
   */
  lemma ResumeMidHaltLosesTheKill(s: Engine, registry: seq<Id>) returns (acts: seq<Action>)
    requires MidHalt(s.pc)
    ensures var s' := Run(s, acts, registry); s'.pc.Idle? && s'.ctl.riskHalt && !s'.ctl.kill
  {
    var resume := ApiResume;
    var resumed := Do(s, resume, registry);
    var rest := MidHaltEnds(resumed, registry);
    RunSteps(s, rest, resume, registry);
    acts := [resume] + rest;
  }

  // ------------------------------------------------------------------------- sequence numbers

  /** Numbers are issued in increasing order, and each is used at most once: sent, drawn or on the desk. */
  ghost predicate Numbered(s: Engine) {
    && (forall i, j :: 0 <= i < j < |s.issued| ==> s.issued[i] < s.issued[j])
    && (forall n :: n in s.issued ==> n <= s.lastSeq)
    && SentOnce(s.sent, s.issued) && DeskOnce(s.desk, s.issued)
    && (forall i, k :: 0 <= i < |s.sent| && 0 <= k < |s.desk| ==> s.sent[i].seqNo != s.desk[k].seqNo)
    && (s.drawn.Some? ==>
          && s.drawn.value in s.issued
          && (forall i :: 0 <= i < |s.sent| ==> s.sent[i].seqNo != s.drawn.value)
          && (forall k :: 0 <= k < |s.desk| ==> s.desk[k].seqNo != s.drawn.value))
  }

  ghost predicate SentOnce(sent: seq<Order>, issued: seq<nat>) {
    && (forall i, j :: 0 <= i < j < |sent| ==> sent[i].seqNo != sent[j].seqNo)
    && (forall i :: 0 <= i < |sent| ==> sent[i].seqNo in issued)
  }

  ghost predicate DeskOnce(desk: seq<Ticket>, issued: seq<nat>) {
    && (forall i, j :: 0 <= i < j < |desk| ==> desk[i].seqNo != desk[j].seqNo)
    && (forall i :: 0 <= i < |desk| ==> desk[i].seqNo in issued)
  }

  /** What one step does to the numbers: nothing, issue one, or use or drop one that was issued. */
  ghost predicate Issues(s: Engine, s': Engine) {
    s'.lastSeq > s.lastSeq && s'.issued == s.issued + [s'.lastSeq] && s'.sent == s.sent
  }

  ghost predicate Uses(s: Engine, s': Engine, n: nat) {
    && s'.lastSeq == s.lastSeq && s'.issued == s.issued
    && (s'.sent == s.sent || (|s'.sent| == |s.sent| + 1 && s'.sent[..|s.sent|] == s.sent && s'.sent[|s.sent|].seqNo == n))
  }

  ghost predicate DrawnByLoop(s: Engine, s': Engine) {
    Issues(s, s') && s'.desk == s.desk && s.drawn.None? && s'.drawn == Some(s'.lastSeq)
  }

  ghost predicate DrawnByDesk(s: Engine, s': Engine, act: Action) {
    Issues(s, s') && s'.drawn == s.drawn && act.ApiDraw? && s'.desk == s.desk + [Ticket(act.id, act.sym, s'.lastSeq)]
  }

  ghost predicate UsedByLoop(s: Engine, s': Engine) {
    s.drawn.Some? && Uses(s, s', s.drawn.value) && s'.desk == s.desk && s'.drawn == None
  }

  ghost predicate UsedByDesk(s: Engine, s': Engine, act: Action) {
    && act.ApiSubmit? && act.k < |s.desk| && Uses(s, s', s.desk[act.k].seqNo)
    && s'.desk == s.desk[..act.k] + s.desk[act.k + 1..] && s'.drawn == s.drawn
  }

  ghost predicate SameNumbers(s: Engine, s': Engine) {
    s'.lastSeq == s.lastSeq && s'.issued == s.issued && s'.sent == s.sent && s'.desk == s.desk && s'.drawn == s.drawn
  }

  ghost predicate StepsNumbers(s: Engine, s': Engine, act: Action) {
    SameNumbers(s, s') || DrawnByLoop(s, s') || DrawnByDesk(s, s', act) || UsedByLoop(s, s') || UsedByDesk(s, s', act)
  }

  lemma TurnNumbers(s: Engine, e: Env, id: Id, c: Closing)
    ensures var s' := TakeTurn(s, e, id, c).0; SameNumbers(s, s') || DrawnByLoop(s, s') || UsedByLoop(s, s')
  {
    hide ToClose;
  }

  lemma RiskNumbers(s: Engine, e: Env, registry: seq<Id>)
    ensures var s' := Risk(s, e, registry); SameNumbers(s, s') || DrawnByLoop(s, s') || UsedByLoop(s, s')
  {
    hide Assess, Assessed, Breach, Bleeding, TotalPnl, RaiseAll, Raise, TakeTurn;
    if s.pc.Flattening? && s.pc.todo != [] {
      TurnNumbers(s, e, s.pc.todo[0], s.pc.c);
    }
    if s.pc.ToStop? && s.pc.stop != [] {
      TurnNumbers(s, e, s.pc.stop[0], s.pc.c);
    }
  }

  lemma PassNumbers(s: Engine, e: Env)
    ensures var s' := Pass(s, e); SameNumbers(s, s') || DrawnByLoop(s, s') || UsedByLoop(s, s')
  {
    hide Intent, SleeveDrawdown, Admit, Sum, Spend;
  }

  lemma StepNumbers(s: Engine, act: Action, registry: seq<Id>)
    ensures StepsNumbers(s, Do(s, act, registry), act)
  {
    hide Risk, Pass, CoversRegistry, UsedByLoop, DrawnByLoop;
    if act.Tick? {
      RiskNumbers(s, act.env, registry);
      PassNumbers(s, act.env);
    }
  }

  lemma IssueKept(s: Engine, s': Engine)
    requires Numbered(s) && Issues(s, s')
    ensures (forall i, j :: 0 <= i < j < |s'.issued| ==> s'.issued[i] < s'.issued[j])
    ensures (forall n :: n in s'.issued ==> n <= s'.lastSeq) && s'.lastSeq in s'.issued && s'.lastSeq !in s.issued
  {
    assert forall i :: 0 <= i < |s.issued| ==> s.issued[i] in s.issued;
    assert s'.issued[|s.issued|] == s'.lastSeq;
  }

  lemma LoopDraws(s: Engine, s': Engine)
    requires Numbered(s) && DrawnByLoop(s, s')
    ensures Numbered(s')
  {
    IssueKept(s, s');
  }

  lemma DeskDraws(s: Engine, s': Engine, act: Action)
    requires Numbered(s) && DrawnByDesk(s, s', act)
    ensures Numbered(s')
  {
    IssueKept(s, s');
  }

  lemma LoopUses(s: Engine, s': Engine)
    requires Numbered(s) && UsedByLoop(s, s')
    ensures Numbered(s')
  {
    assert s'.sent == s.sent || s'.sent == s.sent + [s'.sent[|s.sent|]];
  }

  lemma DeskUses(s: Engine, s': Engine, act: Action)
    requires Numbered(s) && UsedByDesk(s, s', act)
    ensures Numbered(s')
  {
    assert s'.sent == s.sent || s'.sent == s.sent + [s'.sent[|s.sent|]];
    forall j | 0 <= j < |s'.desk| ensures s'.desk[j] == s.desk[if j < act.k then j else j + 1] {}
  }

  lemma NumbersKept(s: Engine, s': Engine, act: Action)
    requires Numbered(s) && StepsNumbers(s, s', act)
    ensures Numbered(s')
  {
    if !SameNumbers(s, s') {
      hide Numbered, DrawnByLoop, DrawnByDesk, UsedByLoop, UsedByDesk;
      if DrawnByLoop(s, s') {
        LoopDraws(s, s');
      } else if DrawnByDesk(s, s', act) {
        DeskDraws(s, s', act);
      } else if UsedByLoop(s, s') {
        LoopUses(s, s');
      } else {
        DeskUses(s, s', act);
      }
    }
  }

  /**
   Over every run numbers are issued in increasing order and no two orders carry the same one, in whatever order
   the loop and the API get around to submitting them.
   */
  lemma {:induction false} NumbersAreUnique(acts: seq<Action>, registry: seq<Id>)
    ensures Numbered(Run(STOPPED, acts, registry))
  {
    if |acts| > 0 {
      hide Do, Numbered;
      var n := |acts| - 1;
      NumbersAreUnique(acts[..n], registry);
      StepNumbers(Run(STOPPED, acts[..n], registry), acts[n], registry);
      NumbersKept(Run(STOPPED, acts[..n], registry), Run(STOPPED, acts, registry), acts[n]);
    }
  }

  // ------------------------------------------------------------------------- the order of sending

  /** Numbers issued and not yet used. */
  function Outstanding(s: Engine): nat {
    |s.desk| + (if s.drawn.Some? then 1 else 0)
  }

  /** Sent in the order issued so far, and whatever is outstanding was issued after all that was sent. */
  ghost predicate InOrderSoFar(s: Engine) {
    && SentInOrder(s.sent)
    && (forall i :: 0 <= i < |s.sent| ==> s.sent[i].seqNo <= s.lastSeq)
    && (forall i, k :: 0 <= i < |s.sent| && 0 <= k < |s.desk| ==> s.sent[i].seqNo < s.desk[k].seqNo <= s.lastSeq)
    && (forall k :: 0 <= k < |s.desk| ==> s.desk[k].seqNo <= s.lastSeq)
    && (s.drawn.Some? ==> s.drawn.value <= s.lastSeq && forall i :: 0 <= i < |s.sent| ==> s.sent[i].seqNo < s.drawn.value)
  }

  ghost predicate SentInOrder(sent: seq<Order>) {
    forall i, j :: 0 <= i < j < |sent| ==> sent[i].seqNo < sent[j].seqNo
  }

  lemma UseKeepsOrder(s: Engine, s': Engine, n: nat)
    requires InOrderSoFar(s) && Uses(s, s', n) && n <= s.lastSeq && forall i :: 0 <= i < |s.sent| ==> s.sent[i].seqNo < n
    ensures SentInOrder(s'.sent) && forall i :: 0 <= i < |s'.sent| ==> s'.sent[i].seqNo <= s'.lastSeq
  {
    assert s'.sent == s.sent || s'.sent == s.sent + [s'.sent[|s.sent|]];
  }

  lemma StepKeepsOrder(s: Engine, s': Engine, act: Action)
    requires InOrderSoFar(s) && Outstanding(s) <= 1 && StepsNumbers(s, s', act)
    ensures InOrderSoFar(s')
  {
    if UsedByLoop(s, s') {
      UseKeepsOrder(s, s', s.drawn.value);
    } else if UsedByDesk(s, s', act) {
      UseKeepsOrder(s, s', s.desk[act.k].seqNo);
    }
  }

  /** Before every action of the run at most one number is outstanding. */
  ghost predicate OneAtATime(acts: seq<Action>, registry: seq<Id>) {
    forall k :: 0 <= k < |acts| ==> Outstanding(Run(STOPPED, acts[..k], registry)) <= 1
  }

  /** Orders are sent in the order of their numbers in every run in which no number is drawn while another is
      outstanding. */
  lemma {:induction false} OneAtATimeSendsInOrder(acts: seq<Action>, registry: seq<Id>)
    requires OneAtATime(acts, registry)
    ensures SentInOrder(Run(STOPPED, acts, registry).sent) && InOrderSoFar(Run(STOPPED, acts, registry))
  {
    if |acts| > 0 {
      hide Do, InOrderSoFar, Outstanding, StepsNumbers;
      var n := |acts| - 1;
      forall k | 0 <= k < n ensures Outstanding(Run(STOPPED, acts[..n][..k], registry)) <= 1 {
        assert acts[..n][..k] == acts[..k];
      }
      OneAtATimeSendsInOrder(acts[..n], registry);
      var s := Run(STOPPED, acts[..n], registry);
      assert Outstanding(s) <= 1;
      StepNumbers(s, acts[n], registry);
      StepKeepsOrder(s, Run(STOPPED, acts, registry), acts[n]);
      OrderSoFar(Run(STOPPED, acts, registry));
    }
  }

  lemma OrderSoFar(s: Engine)
    requires InOrderSoFar(s)
    ensures SentInOrder(s.sent)
  {}

  /** A number drawn by the loop is drawn where its next step submits it. */
  ghost predicate DrawnToSubmit(s: Engine) {
    s.drawn.Some? ==>
      || s.pc.Submitting?
      || (s.pc.Flattening? && s.pc.todo != [] && Closes(s.pc.c))
      || (s.pc.ToStop? && s.pc.stop != [] && Closes(s.pc.c))
  }

  /** The turn has a position left to close. */
  predicate Closes(c: Closing) {
    c.Closing? && |c.closes| < |ToClose(c.holdings)|
  }

  lemma StepDrawsToSubmit(s: Engine, act: Action, registry: seq<Id>)
    requires DrawnToSubmit(s)
    ensures DrawnToSubmit(Do(s, act, registry))
  {
    hide Assess, Assessed, Breach, Bleeding, NextSeq, Intent, SleeveDrawdown, Admit, Sum, CoversRegistry, Spend, ToClose;
  }

  lemma {:induction false} AlwaysDrawnToSubmit(acts: seq<Action>, registry: seq<Id>)
    ensures DrawnToSubmit(Run(STOPPED, acts, registry))
  {
    if |acts| > 0 {
      hide Do, DrawnToSubmit;
      AlwaysDrawnToSubmit(acts[..|acts| - 1], registry);
      StepDrawsToSubmit(Run(STOPPED, acts[..|acts| - 1], registry), acts[|acts| - 1], registry);
    }
  }

  /** The last two orders were sent against the order of their numbers. */
  ghost predicate LastTwoInverted(sent: seq<Order>) {
    |sent| >= 2 && sent[|sent| - 2].seqNo > sent[|sent| - 1].seqNo
  }

  lemma TickSubmits(s: Engine, registry: seq<Id>)
    requires s.drawn.Some? && DrawnToSubmit(s)
    ensures var s' := Do(s, Tick(QUIET), registry);
      && |s'.sent| == |s.sent| + 1 && s'.sent[..|s.sent|] == s.sent && s'.sent[|s.sent|].seqNo == s.drawn.value
      && s'.desk == s.desk
  {
    hide Spend, ToClose;
  }

  lemma DeskSubmits(s: Engine, k: nat, registry: seq<Id>)
    requires k < |s.desk|
    ensures var s' := Do(s, ApiSubmit(k, true), registry);
      && |s'.sent| == |s.sent| + 1 && s'.sent[..|s.sent|] == s.sent && s'.sent[|s.sent|].seqNo == s.desk[k].seqNo
      && s'.desk == s.desk[..k] + s.desk[k + 1..] && s'.drawn == s.drawn && s'.pc == s.pc
  {}

  lemma RunTwo(s: Engine, a: Action, b: Action, registry: seq<Id>)
    ensures Run(s, [a, b], registry) == Do(Do(s, a, registry), b, registry)
  {
    hide Do;
    assert Run(s, [], registry) == s;
    RunOne(s, [], a, registry);
    RunOne(s, [a], b, registry);
    assert [] + [a] == [a] && [a] + [b] == [a, b];
  }

  /** From any state with two numbers outstanding, they can be sent against their order. */
  lemma TwoOutstandingInvert(s: Engine, registry: seq<Id>) returns (acts: seq<Action>)
    requires Numbered(s) && DrawnToSubmit(s) && Outstanding(s) >= 2
    ensures LastTwoInverted(Run(s, acts, registry).sent)
  {
    hide Do, Run, DrawnToSubmit, SentOnce;
    var tick := Tick(QUIET);
    if s.drawn.Some? && s.drawn.value > s.desk[0].seqNo {
      acts := [tick, ApiSubmit(0, true)];
      TickSubmits(s, registry);
      DeskSubmits(Do(s, tick, registry), 0, registry);
      RunTwo(s, acts[0], acts[1], registry);
    } else if s.drawn.Some? {
      acts := [ApiSubmit(0, true), tick];
      DeskSubmits(s, 0, registry);
      SamePlace(s, Do(s, acts[0], registry));
      TickSubmits(Do(s, acts[0], registry), registry);
      RunTwo(s, acts[0], acts[1], registry);
    } else {
      var first := if s.desk[0].seqNo > s.desk[1].seqNo then 0 else 1;
      acts := [ApiSubmit(first, true), ApiSubmit(0, true)];
      DeskSubmits(s, first, registry);
      DeskSubmits(Do(s, acts[0], registry), 0, registry);
      RunTwo(s, acts[0], acts[1], registry);
    }
  }

  lemma SamePlace(s: Engine, s': Engine)
    requires DrawnToSubmit(s) && s'.pc == s.pc && s'.drawn == s.drawn
    ensures DrawnToSubmit(s')
  {}

  /**
   And of a run, whatever it has sent so far: once two numbers are outstanding the run can go on to send out of
   order.
   */
  lemma TwoOutstandingCanSendOutOfOrder(acts: seq<Action>, registry: seq<Id>) returns (more: seq<Action>)
    requires Outstanding(Run(STOPPED, acts, registry)) >= 2
    ensures !SentInOrder(Run(STOPPED, acts + more, registry).sent)
  {
    hide Do, Run, Numbered, DrawnToSubmit, Outstanding;
    NumbersAreUnique(acts, registry);
    AlwaysDrawnToSubmit(acts, registry);
    more := TwoOutstandingInvert(Run(STOPPED, acts, registry), registry);
    RunAppend(STOPPED, acts, more, registry);
  }

  /** Numbers need not be sent in order: a close can overtake the order the loop has just numbered. */
  lemma CloseOvertakes(s: Engine, id: Id, registry: seq<Id>) returns (acts: seq<Action>)
    requires s.pc.Submitting? && s.drawn.None?
    ensures var sent := Run(s, acts, registry).sent;
      |sent| == |s.sent| + 2 && sent[|s.sent|].kind == Close && sent[|s.sent|].seqNo > sent[|s.sent| + 1].seqNo
  {
    var tick, draw, submit := Tick(QUIET), ApiDraw(id, 0, 0), ApiSubmit(|s.desk|, true);
    acts := [tick, draw, submit, tick];
    RunFour(s, tick, draw, submit, tick, registry);
    var s1 := Do(s, tick, registry);
    var s2 := Do(s1, draw, registry);
    var s3 := Do(s2, submit, registry);
    assert s2.desk == s.desk + [Ticket(id, 0, s2.lastSeq)] && s2.lastSeq > s1.lastSeq == s2.drawn.value;
    assert s3.sent == s.sent + [CloseOrder(s2, id, 0, s2.lastSeq)];
    hide Spend;
  }
}
