/**
 The live sleeve as a run of the engine (research/service/engine.py:202-337): each bar is one cycle of the loop, and
 the orders the engine sends are the backtest's changes of position.
 */
module LiveSleeve {
  import opened Reals
  import opened Signals
  import opened LiveControls
  import opened LiveEngine
  import opened LiveRisk
  import opened LiveBacktest

  /** What one cycle reads before its trading pass: the books and the position values. */
  datatype Reading = Reading(rows: seq<Row>, weights: seq<real>)

  const TICK := Tick(QUIET)

  function RefreshStep(r: Reading): Action {
    Tick(QUIET.(rows := Some(r.rows), weights := r.weights))
  }

  function QuoteStep(q: Option<Quote>): Action {
    Tick(QUIET.(quote := q))
  }

  /** The steps of a cycle that finds nothing to stop: to the pass, through it, and out of it. */
  function ToPass(r: Reading): seq<Action> {
    [RefreshStep(r), TICK, TICK, TICK, TICK]
  }

  function ThroughPass(id: Id, q: Option<Quote>, sends: bool): seq<Action> {
    [Tick(GateEnv(id)), TICK, QuoteStep(q)] + (if sends then [TICK, TICK] else []) + [TICK]
  }

  /** The order a cycle sends on this quote. */
  function Decision(q: Option<Quote>, gross: real): Option<Kind> {
    if q.None? then None else Intent(q.value, gross)
  }

  function Cycle(r: Reading, id: Id, q: Option<Quote>): seq<Action> {
    ToPass(r) + ThroughPass(id, q, Decision(q, Sum(AbsAll(r.weights))).Some?)
  }

  /** The engine is between cycles, running, with this sleeve armed. */
  predicate Ready(s: Engine, id: Id) {
    s.pc.Idle? && s.drawn.None? && !s.ctl.kill && id in s.ctl.armed
  }

  /** These books breach no limit. */
  predicate NothingToStop(s: Engine, rows: seq<Row>) {
    var a := Assess(s.ctl.(books := rows));
    !Breach(a) && Bleeding(a, a.sleeves) == []
  }

  lemma Three(s: Engine, a: Action, b: Action, c: Action, registry: seq<Id>)
    ensures Run(s, [a, b, c], registry) == Do(Do(Do(s, a, registry), b, registry), c, registry)
  {
    hide Do;
    assert Run(s, [], registry) == s;
    RunOne(s, [], a, registry);
    RunOne(s, [a], b, registry);
    RunOne(s, [a, b], c, registry);
    assert [] + [a] == [a] && [a] + [b] == [a, b] && [a, b] + [c] == [a, b, c];
  }

  /** Refreshed and assessed, quiet books leave nothing to stop. */
  lemma ReachesStop(s: Engine, r: Reading, id: Id, registry: seq<Id>)
    requires Ready(s, id) && CoversRegistry(r.rows, registry) && NothingToStop(s, r.rows)
    ensures var s' := Do(Do(s, RefreshStep(r), registry), TICK, registry);
      && s'.pc.ToStop? && s'.pc.stop == [] && s'.pc.weights == r.weights && s'.drawn.None? && s'.sent == s.sent
      && s'.ctl.armed == s.ctl.armed && !s'.ctl.kill
  {
    hide Assess, Assessed, Breach, Bleeding, CoversRegistry;
    var s1 := Do(s, RefreshStep(r), registry);
    assert s1.ctl == s.ctl.(books := r.rows) && s1.pc == ToAssess(r.weights);
    AssessedKeeps(s1.ctl);
  }

  /** With nothing to stop and something armed, three steps lead to the trading pass. */
  lemma PassesGate(s: Engine, registry: seq<Id>)
    requires s.pc.ToStop? && s.pc.stop == [] && s.ctl.armed != {} && !s.ctl.kill
    ensures var s' := Do(Do(Do(s, TICK, registry), TICK, registry), TICK, registry);
      && s'.pc.ToTrade? && s'.pc.weights == s.pc.weights && s'.drawn == s.drawn && s'.sent == s.sent
      && s'.ctl.armed == s.ctl.armed && !s'.ctl.kill
  {
    hide Pass, Refresh, Assess, Assessed, Breach, Bleeding;
  }

  lemma Two(s: Engine, a: Action, b: Action, registry: seq<Id>)
    ensures Run(s, [a, b], registry) == Do(Do(s, a, registry), b, registry)
  {
    hide Do;
    assert Run(s, [], registry) == s;
    RunOne(s, [], a, registry);
    RunOne(s, [a], b, registry);
    assert [] + [a] == [a] && [a] + [b] == [a, b];
  }

  /** A cycle on quiet books reaches its trading pass without sending anything. */
  lemma ReachesPass(s: Engine, r: Reading, id: Id, registry: seq<Id>)
    requires Ready(s, id) && CoversRegistry(r.rows, registry) && NothingToStop(s, r.rows)
    ensures var s' := Run(s, ToPass(r), registry);
      && s'.pc.ToTrade? && s'.pc.weights == r.weights && s'.drawn.None? && s'.sent == s.sent
      && s'.ctl.armed == s.ctl.armed && !s'.ctl.kill
  {
    hide Do, CoversRegistry, NothingToStop, RefreshStep;
    ReachesStop(s, r, id, registry);
    var head := [RefreshStep(r), TICK];
    Two(s, RefreshStep(r), TICK, registry);
    var s2 := Run(s, head, registry);
    PassesGate(s2, registry);
    Three(s2, TICK, TICK, TICK, registry);
    assert head + [TICK, TICK, TICK] == ToPass(r);
    RunAppend(s, head, [TICK, TICK, TICK], registry);
  }

  lemma AssessedKeeps(c: Controls)
    ensures Assessed(c).armed == c.armed && Assessed(c).kill == c.kill
  {}

  /** From the pass's first step to its decision. */
  lemma Considers(s: Engine, id: Id, q: Option<Quote>, registry: seq<Id>)
    requires s.pc.ToTrade? && |s.pc.weights| > 0 && id in s.ctl.armed && !s.ctl.kill
    ensures var d := Decision(q, Sum(AbsAll(s.pc.weights)));
      var s' := Run(s, [Tick(GateEnv(id)), TICK, QuoteStep(q)], registry);
      && s'.drawn == s.drawn && s'.sent == s.sent && s'.ctl == s.ctl
      && (if d.Some? then s'.pc.Submitting? && s'.pc.order.kind == d.value && s'.pc.order.id == id && s'.pc.rest == []
          else s'.pc.Trading? && s'.pc.work == [])
  {
    Three(s, Tick(GateEnv(id)), TICK, QuoteStep(q), registry);
    assert [Item(id, 0)][1..] == [];
    assert Admit([Item(id, 0)], s.ctl.armed, |s.pc.weights|) == [Item(id, 0)];
    hide SleeveDrawdown, Sum, AbsAll, Intent, Admit;
    var s1 := Pass(s, GateEnv(id));
    var s2 := Pass(s1, QUIET);
    assert s1.pc.Trading? && s1.pc.work == [Item(id, 0)];
    assert s2.pc.Considering? && s2.pc.work == [Item(id, 0)] && s2.pc.x.gross == Sum(AbsAll(s.pc.weights));
  }

  /** The kinds of the orders sent. */
  function Kinds(sent: seq<Order>): seq<Kind> {
    seq(|sent|, i requires 0 <= i < |sent| => sent[i].kind)
  }

  function Just(order: Option<Kind>): seq<Kind> {
    if order.None? then [] else [order.value]
  }

  lemma PassEnds(s: Engine, registry: seq<Id>)
    requires s.pc.Trading? && s.pc.work == []
    ensures Do(s, TICK, registry) == s.(pc := Idle)
  {
    hide Risk, Refresh, Intent, Sum, Admit, NextSeq, Halted, Spend;
  }

  lemma Finishes(s: Engine, registry: seq<Id>)
    requires s.pc.Trading? && s.pc.work == []
    ensures Run(s, [TICK], registry) == s.(pc := Idle)
  {
    hide Do;
    PassEnds(s, registry);
    assert Run(s, [], registry) == s;
    RunOne(s, [], TICK, registry);
    assert [] + [TICK] == [TICK];
  }

  lemma SendsAndFinishes(s: Engine, registry: seq<Id>)
    requires s.pc.Submitting? && s.drawn.None? && s.pc.rest == []
    ensures var s' := Run(s, [TICK, TICK, TICK], registry);
      && s'.pc.Idle? && s'.drawn.None? && s'.ctl == s.ctl
      && |s'.sent| == |s.sent| + 1 && s'.sent[..|s.sent|] == s.sent && s'.sent[|s.sent|].kind == s.pc.order.kind
  {
    hide Spend, NextSeq;
    Three(s, TICK, TICK, TICK, registry);
    var s1 := Pass(s, QUIET);
    var s2 := Pass(s1, QUIET);
    assert s1.drawn.Some? && s1.pc == s.pc;
    assert s2.pc.Trading? && s2.pc.work == [];
  }

  /** One cycle of a ready engine sends exactly the order its quote decides on, and ends ready again. */
  lemma CycleSends(s: Engine, r: Reading, id: Id, q: Option<Quote>, registry: seq<Id>)
    requires Ready(s, id) && CoversRegistry(r.rows, registry) && NothingToStop(s, r.rows) && |r.weights| > 0
    ensures var s' := Run(s, Cycle(r, id, q), registry);
      && Ready(s', id)
      && Kinds(s'.sent) == Kinds(s.sent) + Just(Decision(q, Sum(AbsAll(r.weights))))
  {
    hide Do, Decision, CoversRegistry, NothingToStop, Sum, AbsAll;
    ReachesPass(s, r, id, registry);
    var s1 := Run(s, ToPass(r), registry);
    Considers(s1, id, q, registry);
    var head := [Tick(GateEnv(id)), TICK, QuoteStep(q)];
    var s2 := Run(s1, head, registry);
    var sends := Decision(q, Sum(AbsAll(r.weights))).Some?;
    var tail := (if sends then [TICK, TICK] else []) + [TICK];
    if sends {
      assert tail == [TICK, TICK, TICK];
      SendsAndFinishes(s2, registry);
    } else {
      assert tail == [TICK];
      Finishes(s2, registry);
    }
    assert ThroughPass(id, q, sends) == head + tail;
    RunAppend(s1, head, tail, registry);
    RunAppend(s, ToPass(r), ThroughPass(id, q, sends), registry);
  }

  // ----------------------------------------------------------------------------------- over the bars

  /** The engine at bar t: one cycle for every bar since `start`. */
  function EngineAt(e: Engine, s: Strategy, closes: seq<real>, m: Market, id: Id, seen: nat -> Reading,
                    registry: seq<Id>, start: nat, t: nat): Engine
    requires t <= |closes|
  {
    if t <= start then e
    else
      var q := BarQuote(s, closes, m, t - 1, LivePosition(s, closes, m, start, t - 1));
      Run(EngineAt(e, s, closes, m, id, seen, registry, start, t - 1), Cycle(seen(t - 1), id, q), registry)
  }

  /** The backtest's changes of position over [start, end). */
  function Changes(s: Strategy, closes: seq<real>, start: nat, end: nat): seq<Kind>
    requires end <= |closes|
  {
    if end <= start then []
    else Changes(s, closes, start, end - 1) + Just(Change(Held(s, closes, end - 1), Was(s, closes, start, end - 1)))
  }

  /** At every bar the books cover the registry and breach nothing, and the position values are the market's. */
  ghost predicate QuietBars(e: Engine, s: Strategy, closes: seq<real>, m: Market, id: Id, seen: nat -> Reading,
                            registry: seq<Id>, start: nat, end: nat)
    requires end <= |closes|
  {
    forall t: nat :: start <= t < end ==> Quiet(EngineAt(e, s, closes, m, id, seen, registry, start, t), m, seen(t), registry, t)
  }

  predicate Quiet(e: Engine, m: Market, r: Reading, registry: seq<Id>, t: nat) {
    && CoversRegistry(r.rows, registry) && NothingToStop(e, r.rows)
    && |r.weights| > 0 && Sum(AbsAll(r.weights)) == m.gross(t)
  }

  /** One bar of the run. */
  lemma BarSends(e: Engine, s: Strategy, closes: seq<real>, m: Market, id: Id, r: Reading, registry: seq<Id>, start: nat, t: nat)
    requires start <= t < |closes| && Fits(s, start) && Calm(m, |closes|)
    requires Ready(e, id) && Quiet(e, m, r, registry, t)
    ensures var q := BarQuote(s, closes, m, t, LivePosition(s, closes, m, start, t));
      var e' := Run(e, Cycle(r, id, q), registry);
      Ready(e', id) && Kinds(e'.sent) == Kinds(e.sent) + Just(Change(Held(s, closes, t), Was(s, closes, start, t)))
  {
    hide TargetSign, Fits, Calm, Held, Was, Change, Cycle, Run, BarQuote, Intent, LivePosition, Ready, Sum, AbsAll, Kinds,
         Just, NothingToStop, CoversRegistry;
    var pos := LivePosition(s, closes, m, start, t);
    CycleSends(e, r, id, BarQuote(s, closes, m, t, pos), registry);
    LiveTradesTheBacktest(s, closes, m, start, t);
  }

  lemma EngineNext(e: Engine, s: Strategy, closes: seq<real>, m: Market, id: Id, seen: nat -> Reading,
                   registry: seq<Id>, start: nat, t: nat)
    requires start <= t < |closes|
    ensures EngineAt(e, s, closes, m, id, seen, registry, start, t + 1)
         == Run(EngineAt(e, s, closes, m, id, seen, registry, start, t),
                Cycle(seen(t), id, BarQuote(s, closes, m, t, LivePosition(s, closes, m, start, t))), registry)
  {
    hide Run, Cycle, BarQuote, LivePosition;
  }

  lemma QuietPrefix(e: Engine, s: Strategy, closes: seq<real>, m: Market, id: Id, seen: nat -> Reading,
                    registry: seq<Id>, start: nat, t: nat)
    requires start <= t < |closes| && QuietBars(e, s, closes, m, id, seen, registry, start, t + 1)
    ensures QuietBars(e, s, closes, m, id, seen, registry, start, t)
    ensures Quiet(EngineAt(e, s, closes, m, id, seen, registry, start, t), m, seen(t), registry, t)
  {
    hide EngineAt, Quiet;
  }

  /**
   What you test is what trades, run by the engine itself: over any bars on which nothing is stopped, a ready
   engine cycled once a bar sends exactly the backtest's changes of position, in order.
   */
  lemma {:induction false} EngineTradesTheBacktest(e: Engine, s: Strategy, closes: seq<real>, m: Market, id: Id,
                                                   seen: nat -> Reading, registry: seq<Id>, start: nat, end: nat)
    requires end <= |closes| && Fits(s, start) && Calm(m, |closes|)
    requires Ready(e, id) && QuietBars(e, s, closes, m, id, seen, registry, start, end)
    ensures var e' := EngineAt(e, s, closes, m, id, seen, registry, start, end);
      Ready(e', id) && Kinds(e'.sent) == Kinds(e.sent) + Changes(s, closes, start, end)
  {
    hide *;
    if end > start {
      var t := end - 1;
      QuietPrefix(e, s, closes, m, id, seen, registry, start, t);
      EngineTradesTheBacktest(e, s, closes, m, id, seen, registry, start, t);
      var before := EngineAt(e, s, closes, m, id, seen, registry, start, t);
      EngineNext(e, s, closes, m, id, seen, registry, start, t);
      BarSends(before, s, closes, m, id, seen(t), registry, start, t);
      ChangesNext(s, closes, start, t);
    } else {
      AtStart(e, s, closes, m, id, seen, registry, start, end);
      assert Kinds(e.sent) + [] == Kinds(e.sent);
    }
  }

  lemma AtStart(e: Engine, s: Strategy, closes: seq<real>, m: Market, id: Id, seen: nat -> Reading,
                registry: seq<Id>, start: nat, end: nat)
    requires end <= |closes| && end <= start
    ensures EngineAt(e, s, closes, m, id, seen, registry, start, end) == e && Changes(s, closes, start, end) == []
  {}

  lemma ChangesNext(s: Strategy, closes: seq<real>, start: nat, t: nat)
    requires start <= t < |closes|
    ensures Changes(s, closes, start, t + 1)
         == Changes(s, closes, start, t) + Just(Change(Held(s, closes, t), Was(s, closes, start, t)))
  {
    hide Held, Was, Change, Just;
  }
}
