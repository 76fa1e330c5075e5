/**
 The shared state of the live engine and the controls that change it (research/service/engine.py): the armed
 set, the latched kill, the high-water marks and the risk assessment. Each function is one critical section of
 the source; `EngineState` is the same state updated in place.
 */
module LiveControls {
  import opened Reals

  const MAX_GROSS_USD: real := 8000.0
  const MAX_SESSION_DRAWDOWN_USD: real := 750.0
  const MAX_STRATEGY_DRAWDOWN_USD: real := 400.0
  const MIN_ORDER_USD: real := 25.0

  type Id = string

  /** One strategy's row of the attribution books. */
  datatype Row = Row(id: Id, pnl: real, gross: real)

  datatype Controls = Controls(armed: set<Id>, kill: bool, riskHalt: bool,
                               pnlPeak: Option<real>, stratPeak: map<Id, real>, books: seq<Row>)

  /** A freshly started engine: disarmed, not killed, no marks. */
  const INITIAL := Controls({}, false, false, None, map[], [])

  function Arm(c: Controls, registry: seq<Id>, id: Id): Controls {
    if id in registry then c.(armed := c.armed + {id}) else c
  }

  function Disarm(c: Controls, id: Id): Controls {
    c.(armed := c.armed - {id})
  }

  function Kill(c: Controls): Controls {
    c.(armed := {}, kill := true)
  }

  function Resume(c: Controls): Controls {
    c.(kill := false, riskHalt := false, pnlPeak := None, stratPeak := map[])
  }

  predicate Halted(c: Controls, id: Id) {
    c.kill || id !in c.armed
  }

  // --------------------------------------------------------------------------- risk assessment

  function TotalPnl(books: seq<Row>): real {
    if |books| == 0 then 0.0 else TotalPnl(books[..|books| - 1]) + books[|books| - 1].pnl
  }

  function TotalGross(books: seq<Row>): real {
    if |books| == 0 then 0.0 else TotalGross(books[..|books| - 1]) + books[|books| - 1].gross
  }

  function Raise(peak: Option<real>, x: real): real {
    if peak.None? then x else Max(peak.value, x)
  }

  function PeakOf(peaks: map<Id, real>, id: Id): Option<real> {
    if id in peaks then Some(peaks[id]) else None
  }

  function RaiseAll(peaks: map<Id, real>, books: seq<Row>): map<Id, real> {
    if |books| == 0 then peaks
    else
      var before, r := RaiseAll(peaks, books[..|books| - 1]), books[|books| - 1];
      before[r.id := Raise(PeakOf(before, r.id), r.pnl)]
  }

  /** A sleeve's drawdown from its own peak, and its exposure. */
  datatype Sleeve = Sleeve(id: Id, drawdown: real, gross: real)

  function Sleeves(peaks: map<Id, real>, books: seq<Row>): seq<Sleeve> {
    if |books| == 0 then []
    else
      var init, r := books[..|books| - 1], books[|books| - 1];
      Sleeves(peaks, init) + [Sleeve(r.id, r.pnl - Raise(PeakOf(RaiseAll(peaks, init), r.id), r.pnl), r.gross)]
  }

  /** What the first critical section of the risk check leaves in locals. */
  datatype Assessment = Assessment(drawdown: real, gross: real, armed: set<Id>, sleeves: seq<Sleeve>)

  function Assess(c: Controls): Assessment {
    var pnl := TotalPnl(c.books);
    Assessment(pnl - Raise(c.pnlPeak, pnl), TotalGross(c.books), c.armed, Sleeves(c.stratPeak, c.books))
  }

  function Assessed(c: Controls): Controls {
    c.(pnlPeak := Some(Raise(c.pnlPeak, TotalPnl(c.books))), stratPeak := RaiseAll(c.stratPeak, c.books))
  }

  /** The aggregate limit is breached and there is something to stop. */
  predicate Breach(a: Assessment) {
    a.drawdown <= -MAX_SESSION_DRAWDOWN_USD && (a.gross > 0.0 || a.armed != {})
  }

  predicate SleeveBreach(a: Assessment, s: Sleeve) {
    s.drawdown <= -MAX_STRATEGY_DRAWDOWN_USD && (s.gross > 0.0 || s.id in a.armed)
  }

  /** The sleeves to flatten and disarm, in book order. */
  function Bleeding(a: Assessment, sleeves: seq<Sleeve>): seq<Id> {
    if |sleeves| == 0 then []
    else (if SleeveBreach(a, sleeves[0]) then [sleeves[0].id] else []) + Bleeding(a, sleeves[1..])
  }

  /** Any number of arms in a row. */
  function ArmAll(c: Controls, registry: seq<Id>, arms: seq<Id>): Controls {
    if |arms| == 0 then c else Arm(ArmAll(c, registry, arms[..|arms| - 1]), registry, arms[|arms| - 1])
  }

  lemma {:induction false} ArmingKeepsKill(c: Controls, registry: seq<Id>, arms: seq<Id>)
    ensures ArmAll(c, registry, arms).kill == c.kill
  {
    if |arms| > 0 {
      ArmingKeepsKill(c, registry, arms[..|arms| - 1]);
    }
  }

  class EngineState {
    const registry: seq<Id>
    var armed: set<Id>
    var kill: bool
    var riskHalt: bool
    var pnlPeak: Option<real>
    var stratPeak: map<Id, real>
    var books: seq<Row>
    var lastSeq: nat

    ghost function View(): Controls
      reads this
    {
      Controls(armed, kill, riskHalt, pnlPeak, stratPeak, books)
    }

    constructor (registry: seq<Id>)
      ensures View() == INITIAL && this.registry == registry && lastSeq == 0
    {
      this.registry := registry;
      armed, kill, riskHalt, pnlPeak, stratPeak, books, lastSeq := {}, false, false, None, map[], [], 0;
    }

    /** Lets one registered strategy trade, unless the kill is engaged; nobody else is affected. */
    method ArmStrategy(id: Id) returns (known: bool)
      modifies this`armed
      ensures known == (id in registry) && View() == Arm(old(View()), registry, id)
      ensures Halted(View(), id) == if known then kill else old(Halted(View(), id))
      ensures forall other :: other != id ==> Halted(View(), other) == old(Halted(View(), other))
    {
      known := id in registry;
      if known {
        armed := armed + {id};
      }
    }

    /** Stops one strategy and nobody else. */
    method DisarmStrategy(id: Id)
      modifies this`armed
      ensures View() == Disarm(old(View()), id)
      ensures Halted(View(), id)
      ensures forall other :: other != id ==> Halted(View(), other) == old(Halted(View(), other))
    {
      armed := armed - {id};
    }

    /** Stops every strategy, and keeps them stopped whatever is armed afterwards. */
    method KillAll()
      modifies this`armed, this`kill
      ensures View() == Kill(old(View()))
      ensures forall arms: seq<Id>, id :: Halted(ArmAll(View(), registry, arms), id)
    {
      armed := {};
      kill := true;
      forall arms: seq<Id>, id ensures Halted(ArmAll(View(), registry, arms), id) {
        ArmingKeepsKill(View(), registry, arms);
      }
    }

    /** Lets the armed strategies trade again, from fresh marks: nothing counts as drawdown until more is lost. */
    method ResumeTrading()
      modifies this`kill, this`riskHalt, this`pnlPeak, this`stratPeak
      ensures View() == Resume(old(View()))
      ensures forall id :: Halted(View(), id) <==> id !in old(armed)
      ensures Assess(View()).drawdown == 0.0 && !Breach(Assess(View()))
    {
      kill, riskHalt := false, false;
      pnlPeak, stratPeak := None, map[];
    }

    /** A strictly increasing sequence number, the wall clock's millisecond when that is new. */
    method NextSeq(clock: nat) returns (s: nat)
      modifies this`lastSeq
      ensures s == lastSeq && s > old(lastSeq) && s >= clock && View() == old(View())
      ensures clock > old(lastSeq) ==> s == clock
    {
      s := clock;
      if s <= lastSeq {
        s := lastSeq + 1;
      }
      lastSeq := s;
    }

    /** The totals over the books. */
    method Totals() returns (pnl: real, gross: real)
      ensures pnl == TotalPnl(books) && gross == TotalGross(books)
    {
      gross, pnl := 0.0, 0.0;
      for i := 0 to |books|
        invariant gross == TotalGross(books[..i]) && pnl == TotalPnl(books[..i])
      {
        assert books[..i + 1][..i] == books[..i];
        gross, pnl := gross + books[i].gross, pnl + books[i].pnl;
      }
      assert books[..|books|] == books;
    }

    /** Raises every strategy's peak and measures its drawdown from the raised peak. */
    method RaiseSleeves() returns (sleeves: seq<Sleeve>)
      modifies this`stratPeak
      ensures stratPeak == RaiseAll(old(stratPeak), books) && sleeves == Sleeves(old(stratPeak), books)
    {
      sleeves := [];
      for i := 0 to |books|
        invariant stratPeak == RaiseAll(old(stratPeak), books[..i])
        invariant sleeves == Sleeves(old(stratPeak), books[..i])
      {
        assert books[..i + 1][..i] == books[..i];
        var r := books[i];
        var high := if r.id in stratPeak then Max(stratPeak[r.id], r.pnl) else r.pnl;
        stratPeak := stratPeak[r.id := high];
        sleeves := sleeves + [Sleeve(r.id, r.pnl - high, r.gross)];
      }
      assert books[..|books|] == books;
    }

    /** The assessment section: raises every peak and measures every drawdown from the raised peak. */
    method AssessRisk() returns (a: Assessment)
      modifies this`pnlPeak, this`stratPeak
      ensures a == Assess(old(View())) && View() == Assessed(old(View()))
    {
      hide Sleeves, RaiseAll, TotalPnl, TotalGross;
      var pnl, gross := Totals();
      var peak := Raise(pnlPeak, pnl);
      pnlPeak := Some(peak);
      var sleeves := RaiseSleeves();
      a := Assessment(pnl - peak, gross, armed, sleeves);
    }
  }
}
