/**
 What a halt and a sleeve stop close (research/service/engine.py:270-319, 405-444), over every interleaving of the
 loop and the API: no cycle that found a breach with exposure open ends before every registered strategy has had its
 turn to be flattened, no bleeding sleeve is disarmed before it has had its own, and a turn puts in one close for
 each position that needs one.
 */
module LiveFlatten {
  import opened Reals
  import opened LiveControls
  import opened LiveEngine
  import opened LiveRisk

  // -------------------------------------------------------------------------------------- one turn

  /** An open position with something available and no close working already. */
  predicate NeedsClose(h: Holding) {
    h.qty != 0.0 && h.available > 0.0 && !h.working
  }

  ghost predicate IsCloseOf(o: Order, id: Id, close: Submission) {
    o.kind == Close && o.id == id && o.sym == close.sym && o.seqNo == close.seqNo
  }

  /** The close carries an issued number, and was sent under it unless the broker turned it away. */
  ghost predicate Submitted(close: Submission, id: Id, issued: seq<nat>, sent: seq<Order>) {
    && close.seqNo in issued
    && (close.accepted ==> exists k :: 0 <= k < |sent| && IsCloseOf(sent[k], id, close))
  }

  /** The first closes of the turn, in the order of the holdings. */
  ghost predicate SoFar(holdings: seq<Holding>, closes: seq<Submission>, id: Id, issued: seq<nat>, sent: seq<Order>) {
    && |closes| <= |ToClose(holdings)|
    && forall j :: 0 <= j < |closes| ==> closes[j].sym == ToClose(holdings)[j] && Submitted(closes[j], id, issued, sent)
  }

  ghost predicate TurnDone(t: Turn, issued: seq<nat>, sent: seq<Order>) {
    t.holdings.Some? ==>
      SoFar(t.holdings.value, t.closes, t.id, issued, sent) && |t.closes| == |ToClose(t.holdings.value)|
  }

  lemma {:induction false} ToCloseIs(holdings: seq<Holding>, sym: nat)
    ensures sym in ToClose(holdings) <==> Needed(sym, holdings)
  {
    if |holdings| > 0 {
      ToCloseIs(holdings[1..], sym);
      if i :| 0 <= i < |holdings| && NeedsClose(holdings[i]) && holdings[i].sym == sym {
        assert i > 0 ==> holdings[1..][i - 1] == holdings[i];
      }
    }
  }

  ghost predicate OncePerSymbol(holdings: seq<Holding>) {
    forall i, j :: 0 <= i < j < |holdings| ==> holdings[i].sym != holdings[j].sym
  }

  lemma {:induction false} ToCloseOnce(holdings: seq<Holding>)
    requires OncePerSymbol(holdings)
    ensures forall i, j :: 0 <= i < j < |ToClose(holdings)| ==> ToClose(holdings)[i] != ToClose(holdings)[j]
  {
    if |holdings| > 0 {
      ToCloseOnce(holdings[1..]);
      ToCloseIs(holdings[1..], holdings[0].sym);
    }
  }

  /** Every position that needs a close got one that was submitted or turned away. */
  ghost predicate EachHasItsClose(holdings: seq<Holding>, closes: seq<Submission>, id: Id, issued: seq<nat>, sent: seq<Order>) {
    forall i :: 0 <= i < |holdings| && NeedsClose(holdings[i]) ==> HasClose(holdings[i].sym, closes, id, issued, sent)
  }

  ghost predicate HasClose(sym: nat, closes: seq<Submission>, id: Id, issued: seq<nat>, sent: seq<Order>) {
    exists j :: 0 <= j < |closes| && closes[j].sym == sym && Submitted(closes[j], id, issued, sent)
  }

  ghost predicate EachIsNeeded(closes: seq<Submission>, holdings: seq<Holding>) {
    forall j :: 0 <= j < |closes| ==> Needed(closes[j].sym, holdings)
  }

  ghost predicate Needed(sym: nat, holdings: seq<Holding>) {
    exists i :: 0 <= i < |holdings| && NeedsClose(holdings[i]) && holdings[i].sym == sym
  }

  lemma ClosedBy(sym: nat, closes: seq<Submission>, j: nat, id: Id, issued: seq<nat>, sent: seq<Order>)
    requires j < |closes| && closes[j].sym == sym && Submitted(closes[j], id, issued, sent)
    ensures HasClose(sym, closes, id, issued, sent)
  {}

  /** A finished turn closed each position that needs it, no other, and none twice. */
  lemma TurnClosesWhatItShould(t: Turn, issued: seq<nat>, sent: seq<Order>)
    requires TurnDone(t, issued, sent) && t.holdings.Some?
    ensures EachHasItsClose(t.holdings.value, t.closes, t.id, issued, sent) && EachIsNeeded(t.closes, t.holdings.value)
    ensures OncePerSymbol(t.holdings.value) ==> forall i, j :: 0 <= i < j < |t.closes| ==> t.closes[i].sym != t.closes[j].sym
  {
    hide Submitted, ToClose, HasClose;
    var holdings, todo := t.holdings.value, ToClose(t.holdings.value);
    forall i | 0 <= i < |holdings| && NeedsClose(holdings[i]) ensures HasClose(holdings[i].sym, t.closes, t.id, issued, sent) {
      ToCloseIs(holdings, holdings[i].sym);
      var j :| 0 <= j < |todo| && todo[j] == holdings[i].sym;
      ClosedBy(holdings[i].sym, t.closes, j, t.id, issued, sent);
    }
    forall j | 0 <= j < |t.closes| ensures Needed(t.closes[j].sym, holdings) {
      assert t.closes[j].sym == todo[j];
      ToCloseIs(holdings, todo[j]);
    }
    if OncePerSymbol(holdings) {
      NoneTwice(t, issued, sent);
    }
  }

  lemma NoneTwice(t: Turn, issued: seq<nat>, sent: seq<Order>)
    requires TurnDone(t, issued, sent) && t.holdings.Some? && OncePerSymbol(t.holdings.value)
    ensures forall i, j :: 0 <= i < j < |t.closes| ==> t.closes[i].sym != t.closes[j].sym
  {
    ToCloseOnce(t.holdings.value);
    hide ToClose, Submitted;
    forall i, j | 0 <= i < j < |t.closes| ensures t.closes[i].sym != t.closes[j].sym {
      assert t.closes[i].sym == ToClose(t.holdings.value)[i] && t.closes[j].sym == ToClose(t.holdings.value)[j];
    }
  }

  // ------------------------------------------------------------------------------ where the loop is

  ghost predicate Turned(turns: seq<Turn>, id: Id) {
    exists k :: 0 <= k < |turns| && turns[k].id == id
  }

  /** Every registered strategy has had its turn, or is still to have it. */
  ghost predicate EveryoneTurned(turns: seq<Turn>, registry: seq<Id>, todo: seq<Id>) {
    forall id :: id in registry ==> id in todo || Turned(turns, id)
  }

  /** So has every sleeve beyond its limit. */
  ghost predicate BleedingTurned(turns: seq<Turn>, a: Assessment, todo: seq<Id>) {
    forall v :: v in a.sleeves && SleeveBreach(a, v) ==> v.id in todo || Turned(turns, v.id)
  }

  /** Only such sleeves are stopped. */
  ghost predicate OnlyBleeding(a: Assessment, stop: seq<Id>) {
    forall id :: id in stop ==> exists v :: v in a.sleeves && v.id == id && SleeveBreach(a, v)
  }

  ghost predicate Halting(a: Assessment, turns: seq<Turn>, registry: seq<Id>, todo: seq<Id>) {
    Breach(a) && (a.gross > 0.0 ==> EveryoneTurned(turns, registry, todo))
  }

  ghost predicate Stopping(a: Assessment, turns: seq<Turn>, todo: seq<Id>) {
    !Breach(a) && BleedingTurned(turns, a, todo)
  }

  /** What the turns finished so far say at each point of a cycle; `Idle` is its end. */
  ghost predicate PlaceSound(pc: Pc, assessed: Option<Assessment>, turns: seq<Turn>, registry: seq<Id>) {
    match pc
    case Idle =>
      assessed.Some? ==> Halting(assessed.value, turns, registry, []) || Stopping(assessed.value, turns, [])
    case ToAssess(_) => assessed.None?
    case ToReadHalt(a) => assessed == Some(a) && Breach(a)
    case ToKill(a) => assessed == Some(a) && Breach(a)
    case Flattening(a, todo, _) => assessed == Some(a) && a.gross > 0.0 && Halting(a, turns, registry, todo)
    case ToHalt(a) => assessed == Some(a) && Halting(a, turns, registry, [])
    case ToStop(a, stop, _, _) => assessed == Some(a) && Stopping(a, turns, stop) && OnlyBleeding(a, stop)
    case ToDisarm(a, stop, _) =>
      assessed == Some(a) && OnlyBleeding(a, stop) && (stop == [] ==> Stopping(a, turns, []))
      && (stop != [] ==> Turned(turns, stop[0]) && Stopping(a, turns, stop[1..]))
    case _ => assessed == Cleared(pc) && assessed.Some? && Stopping(assessed.value, turns, [])
  }

  /** Turns on record are done, and so is what the turn under way has done so far. */
  ghost predicate RecordsSound(s: Engine) {
    && (s.drawn.Some? ==> s.drawn.value in s.issued)
    && (forall k :: 0 <= k < |s.turns| ==> TurnDone(s.turns[k], s.issued, s.sent))
    && (s.pc.Flattening? && s.pc.todo != [] && s.pc.c.Closing? ==>
          SoFar(s.pc.c.holdings, s.pc.c.closes, s.pc.todo[0], s.issued, s.sent))
    && (s.pc.ToStop? && s.pc.stop != [] && s.pc.c.Closing? ==>
          SoFar(s.pc.c.holdings, s.pc.c.closes, s.pc.stop[0], s.issued, s.sent))
  }

  lemma TurnedMore(turns: seq<Turn>, t: Turn, id: Id)
    ensures Turned(turns + [t], id) <==> Turned(turns, id) || t.id == id
  {
    var more := turns + [t];
    if Turned(turns, id) {
      var k :| 0 <= k < |turns| && turns[k].id == id;
      assert more[k] == turns[k];
    }
    if t.id == id {
      assert more[|turns|] == t;
    }
  }

  lemma EveryoneAfter(turns: seq<Turn>, t: Turn, registry: seq<Id>, todo: seq<Id>)
    requires todo != [] && t.id == todo[0] && EveryoneTurned(turns, registry, todo)
    ensures EveryoneTurned(turns + [t], registry, todo[1..])
  {
    forall id | id in registry ensures id in todo[1..] || Turned(turns + [t], id) {
      TurnedMore(turns, t, id);
      assert id in todo ==> id == todo[0] || id in todo[1..];
    }
  }

  lemma BleedingAfter(turns: seq<Turn>, t: Turn, a: Assessment, todo: seq<Id>)
    requires todo != [] && t.id == todo[0] && BleedingTurned(turns, a, todo)
    ensures Turned(turns + [t], todo[0]) && BleedingTurned(turns + [t], a, todo[1..])
  {
    TurnedMore(turns, t, todo[0]);
    forall v | v in a.sleeves && SleeveBreach(a, v) ensures v.id in todo[1..] || Turned(turns + [t], v.id) {
      TurnedMore(turns, t, v.id);
      assert v.id in todo ==> v.id == todo[0] || v.id in todo[1..];
    }
  }

  /** A step of a turn either leaves it going or puts it on record. */
  lemma TurnGoesOn(s: Engine, e: Env, id: Id, c: Closing)
    ensures var (s', left) := TakeTurn(s, e, id, c);
      && s'.pc == s.pc && s'.assessed == s.assessed
      && if left.Some? then s'.turns == s.turns
         else |s'.turns| == |s.turns| + 1 && s'.turns == s.turns + [s'.turns[|s.turns|]] && s'.turns[|s.turns|].id == id
  {
    hide NextSeq, ToClose;
  }

  lemma RiskPlace(s: Engine, e: Env, registry: seq<Id>)
    requires PlaceSound(s.pc, s.assessed, s.turns, registry)
    ensures var s' := Risk(s, e, registry); PlaceSound(s'.pc, s'.assessed, s'.turns, registry)
  {
    hide TakeTurn, Assess, Assessed, Breach, Bleeding, SleeveBreach, EveryoneTurned, BleedingTurned, OnlyBleeding, Turned;
    match s.pc
    case ToAssess(w) =>
      var a := Assess(s.ctl);
      if !Breach(a) {
        BleedingMembers(a, a.sleeves);
        AllBleeding(s.turns, a);
        StopsOnlyBleeding(a);
      }
    case ToReadHalt(a) => NobodyYet(s.turns, registry);
    case ToKill(a) => NobodyYet(s.turns, registry);
    case Flattening(a, todo, c) =>
      if todo != [] {
        TurnGoesOn(s, e, todo[0], c);
        var s' := TakeTurn(s, e, todo[0], c).0;
        if |s'.turns| > |s.turns| && a.gross > 0.0 {
          EveryoneAfter(s.turns, s'.turns[|s.turns|], registry, todo);
        }
      }
    case ToStop(a, stop, w, c) =>
      if stop != [] {
        TurnGoesOn(s, e, stop[0], c);
        var s' := TakeTurn(s, e, stop[0], c).0;
        if |s'.turns| > |s.turns| {
          BleedingAfter(s.turns, s'.turns[|s.turns|], a, stop);
        }
      }
    case ToDisarm(a, stop, w) =>
      if stop != [] {
        RestOnly(a, stop);
      }
    case _ =>
  }

  lemma {:induction false} BleedingOnly(a: Assessment, sleeves: seq<Sleeve>)
    ensures forall id :: id in Bleeding(a, sleeves) ==> exists v :: v in sleeves && v.id == id && SleeveBreach(a, v)
  {
    if |sleeves| > 0 {
      BleedingOnly(a, sleeves[1..]);
      forall id | id in Bleeding(a, sleeves) ensures exists v :: v in sleeves && v.id == id && SleeveBreach(a, v) {
        if SleeveBreach(a, sleeves[0]) && id == sleeves[0].id {
          assert sleeves[0] in sleeves;
        } else {
          assert id in Bleeding(a, sleeves[1..]);
          var v :| v in sleeves[1..] && v.id == id && SleeveBreach(a, v);
          assert v in sleeves;
        }
      }
    }
  }

  lemma StopsOnlyBleeding(a: Assessment)
    ensures OnlyBleeding(a, Bleeding(a, a.sleeves))
  {
    BleedingOnly(a, a.sleeves);
  }

  lemma RestOnly(a: Assessment, stop: seq<Id>)
    requires stop != [] && OnlyBleeding(a, stop)
    ensures OnlyBleeding(a, stop[1..])
  {
    assert forall id :: id in stop[1..] ==> id in stop;
  }

  lemma NobodyYet(turns: seq<Turn>, registry: seq<Id>)
    ensures EveryoneTurned(turns, registry, registry)
  {}

  lemma AllBleeding(turns: seq<Turn>, a: Assessment)
    requires forall v :: v in a.sleeves && SleeveBreach(a, v) ==> v.id in Bleeding(a, a.sleeves)
    ensures BleedingTurned(turns, a, Bleeding(a, a.sleeves))
  {}

  lemma PassPlace(s: Engine, e: Env, registry: seq<Id>)
    requires PlaceSound(s.pc, s.assessed, s.turns, registry)
    requires s.pc.ToTrade? || s.pc.Trading? || s.pc.Considering? || s.pc.Submitting?
    ensures var s' := Pass(s, e); PlaceSound(s'.pc, s'.assessed, s'.turns, registry)
  {
    hide Stopping, Halting, Intent, SleeveDrawdown, Admit, Sum, NextSeq, Spend;
  }

  lemma StepPlace(s: Engine, act: Action, registry: seq<Id>)
    requires PlaceSound(s.pc, s.assessed, s.turns, registry)
    ensures var s' := Do(s, act, registry); PlaceSound(s'.pc, s'.assessed, s'.turns, registry)
  {
    if act.Tick? && !s.pc.Idle? {
      var passing := s.pc.ToTrade? || s.pc.Trading? || s.pc.Considering? || s.pc.Submitting?;
      if passing {
        PassPlace(s, act.env, registry);
      } else {
        RiskPlace(s, act.env, registry);
      }
    }
    hide Risk, Pass, CoversRegistry, NextSeq, Halting, Stopping, Breach;
  }

  // --------------------------------------------------------------------------------- the records

  lemma StaysSubmitted(close: Submission, id: Id, issued: seq<nat>, sent: seq<Order>, issued': seq<nat>, sent': seq<Order>)
    requires Submitted(close, id, issued, sent) && issued <= issued' && sent <= sent'
    ensures Submitted(close, id, issued', sent')
  {
    assert close.seqNo in issued';
    if close.accepted {
      var k :| 0 <= k < |sent| && IsCloseOf(sent[k], id, close);
      assert sent'[k] == sent[k];
    }
  }

  lemma StaysSoFar(holdings: seq<Holding>, closes: seq<Submission>, id: Id, s: Engine, s': Engine)
    requires SoFar(holdings, closes, id, s.issued, s.sent) && s.issued <= s'.issued && s.sent <= s'.sent
    ensures SoFar(holdings, closes, id, s'.issued, s'.sent)
  {
    hide Submitted, ToClose;
    forall j | 0 <= j < |closes| ensures Submitted(closes[j], id, s'.issued, s'.sent) {
      StaysSubmitted(closes[j], id, s.issued, s.sent, s'.issued, s'.sent);
    }
  }

  lemma StaysDone(s: Engine, s': Engine)
    requires forall k :: 0 <= k < |s.turns| ==> TurnDone(s.turns[k], s.issued, s.sent)
    requires s.issued <= s'.issued && s.sent <= s'.sent
    ensures forall k :: 0 <= k < |s.turns| ==> TurnDone(s.turns[k], s'.issued, s'.sent)
  {
    hide SoFar;
    forall k | 0 <= k < |s.turns| ensures TurnDone(s.turns[k], s'.issued, s'.sent) {
      var t := s.turns[k];
      if t.holdings.Some? {
        StaysSoFar(t.holdings.value, t.closes, t.id, s, s');
      }
    }
  }

  lemma StepGrowsRecords(s: Engine, act: Action, registry: seq<Id>)
    ensures var s' := Do(s, act, registry); s.issued <= s'.issued && s.sent <= s'.sent
    ensures (s.drawn.Some? ==> s.drawn.value in s.issued) ==>
              (Do(s, act, registry).drawn.Some? ==> Do(s, act, registry).drawn.value in Do(s, act, registry).issued)
  {
    hide Do;
    StepNumbers(s, act, registry);
  }

  /** Submitting the next close of a turn adds it to what the turn has done. */
  lemma TurnRecords(s: Engine, e: Env, id: Id, c: Closing)
    requires s.drawn.Some? ==> s.drawn.value in s.issued
    requires c.Closing? ==> SoFar(c.holdings, c.closes, id, s.issued, s.sent)
    ensures var (s', left) := TakeTurn(s, e, id, c);
      && (left.Some? && left.value.Closing? ==> SoFar(left.value.holdings, left.value.closes, id, s'.issued, s'.sent))
      && (left.None? ==> |s'.turns| == |s.turns| + 1 && TurnDone(s'.turns[|s.turns|], s'.issued, s'.sent))
  {
    hide NextSeq, ToClose, Submitted;
    if c.Closing? {
      var s' := TakeTurn(s, e, id, c).0;
      StaysSoFar(c.holdings, c.closes, id, s, s');
      var k := |c.closes|;
      if k < |ToClose(c.holdings)| && s.drawn.Some? {
        JustSubmitted(s, e, id, ToClose(c.holdings)[k]);
      }
    }
  }

  lemma JustSubmitted(s: Engine, e: Env, id: Id, sym: nat)
    requires s.drawn.Some? && s.drawn.value in s.issued
    ensures var s' := Submit(s, CloseOrder(s, id, sym, 0), e.accepted);
      Submitted(Submission(sym, s.drawn.value, e.accepted), id, s'.issued, s'.sent)
  {
    var s' := Submit(s, CloseOrder(s, id, sym, 0), e.accepted);
    if e.accepted {
      assert IsCloseOf(s'.sent[|s.sent|], id, Submission(sym, s.drawn.value, true));
    }
  }

  lemma RiskRecords(s: Engine, e: Env, registry: seq<Id>)
    requires RecordsSound(s)
    ensures RecordsSound(Risk(s, e, registry))
  {
    var s' := Risk(s, e, registry);
    RiskNumbers(s, e, registry);
    StaysDone(s, s');
    if s.pc.Flattening? && s.pc.todo != [] {
      TurnRecords(s, e, s.pc.todo[0], s.pc.c);
      TurnGoesOn(s, e, s.pc.todo[0], s.pc.c);
    }
    if s.pc.ToStop? && s.pc.stop != [] {
      TurnRecords(s, e, s.pc.stop[0], s.pc.c);
      TurnGoesOn(s, e, s.pc.stop[0], s.pc.c);
    }
    hide TakeTurn, Assess, Assessed, Breach, Bleeding, SoFar, TurnDone;
  }

  lemma StepRecords(s: Engine, act: Action, registry: seq<Id>)
    requires RecordsSound(s)
    ensures RecordsSound(Do(s, act, registry))
  {
    var s' := Do(s, act, registry);
    StepGrowsRecords(s, act, registry);
    StaysDone(s, s');
    if s.pc.Flattening? && s.pc.todo != [] && s.pc.c.Closing? {
      StaysSoFar(s.pc.c.holdings, s.pc.c.closes, s.pc.todo[0], s, s');
    }
    if s.pc.ToStop? && s.pc.stop != [] && s.pc.c.Closing? {
      StaysSoFar(s.pc.c.holdings, s.pc.c.closes, s.pc.stop[0], s, s');
    }
    if act.Tick? {
      RiskRecords(s, act.env, registry);
      PassKeepsTurns(s, act.env);
    }
    hide Risk, Pass, CoversRegistry, NextSeq, SoFar, TurnDone;
  }

  lemma PassKeepsTurns(s: Engine, e: Env)
    ensures var s' := Pass(s, e); s'.turns == s.turns && (s'.pc == s.pc || (!s'.pc.Flattening? && !s'.pc.ToStop?))
  {
    hide Intent, SleeveDrawdown, Admit, Sum, NextSeq, Spend;
  }

  // ------------------------------------------------------------------------------------- every run

  lemma {:induction false} TurnsAlwaysSound(acts: seq<Action>, registry: seq<Id>)
    ensures var s := Run(STOPPED, acts, registry);
      RecordsSound(s) && PlaceSound(s.pc, s.assessed, s.turns, registry)
  {
    if |acts| > 0 {
      hide Do, RecordsSound, PlaceSound;
      var n := |acts| - 1;
      TurnsAlwaysSound(acts[..n], registry);
      StepRecords(Run(STOPPED, acts[..n], registry), acts[n], registry);
      StepPlace(Run(STOPPED, acts[..n], registry), acts[n], registry);
    }
  }

  /** The strategy had a turn in this cycle: its positions could not be read, or each that needed it was closed, the
      close numbered and submitted or turned away. */
  ghost predicate WasFlattened(s: Engine, id: Id) {
    exists k :: 0 <= k < |s.turns| && s.turns[k].id == id
      && (s.turns[k].holdings.Some? ==>
            EachHasItsClose(s.turns[k].holdings.value, s.turns[k].closes, id, s.issued, s.sent)
            && EachIsNeeded(s.turns[k].closes, s.turns[k].holdings.value))
  }

  lemma TurnedWasFlattened(s: Engine, id: Id)
    requires RecordsSound(s) && Turned(s.turns, id)
    ensures WasFlattened(s, id)
  {
    hide EachHasItsClose, EachIsNeeded, TurnDone, SoFar;
    var k :| 0 <= k < |s.turns| && s.turns[k].id == id;
    assert TurnDone(s.turns[k], s.issued, s.sent);
    if s.turns[k].holdings.Some? {
      TurnClosesWhatItShould(s.turns[k], s.issued, s.sent);
    }
  }

  /**
   Over every run: a cycle that assessed a breach with exposure open does not end before every registered strategy
   has been flattened, in the first breached cycle and in every later one.
   */
  lemma BreachFlattensEveryone(acts: seq<Action>, registry: seq<Id>, id: Id)
    requires var s := Run(STOPPED, acts, registry);
      && s.pc.Idle? && s.assessed.Some? && id in registry
      && s.assessed.value.drawdown <= -750.0 && s.assessed.value.gross > 0.0
    ensures WasFlattened(Run(STOPPED, acts, registry), id)
  {
    hide Run, RecordsSound, WasFlattened, SleeveBreach;
    TurnsAlwaysSound(acts, registry);
    TurnedWasFlattened(Run(STOPPED, acts, registry), id);
  }

  /** The sleeve fell 400 or more below its high while it had exposure or was armed. */
  ghost predicate Bleeds(v: Sleeve, a: Assessment) {
    v.drawdown <= -400.0 && (v.gross > 0.0 || v.id in a.armed)
  }

  /**
   Over every run: the loop disarms no sleeve before flattening it, and a cycle within the session limit does not go
   on to trade, or end, before every sleeve beyond its own limit has been flattened.
   */
  lemma BleedingSleevesAreFlattened(acts: seq<Action>, registry: seq<Id>)
    ensures var s := Run(STOPPED, acts, registry);
      && (s.pc.ToDisarm? && s.pc.stop != [] ==> WasFlattened(s, s.pc.stop[0]))
      && (s.assessed.Some? && s.assessed.value.drawdown > -750.0 && !s.pc.ToStop? && !s.pc.ToDisarm? ==>
            forall v :: v in s.assessed.value.sleeves && Bleeds(v, s.assessed.value) ==> WasFlattened(s, v.id))
  {
    hide Run, RecordsSound, WasFlattened, Turned;
    var s := Run(STOPPED, acts, registry);
    TurnsAlwaysSound(acts, registry);
    if s.pc.ToDisarm? && s.pc.stop != [] {
      TurnedWasFlattened(s, s.pc.stop[0]);
    }
    if s.assessed.Some? && s.assessed.value.drawdown > -750.0 && !s.pc.ToStop? && !s.pc.ToDisarm? {
      forall v | v in s.assessed.value.sleeves && Bleeds(v, s.assessed.value) ensures WasFlattened(s, v.id) {
        assert SleeveBreach(s.assessed.value, v);
        TurnedWasFlattened(s, v.id);
      }
    }
  }

  /**
   And nothing is halted or stopped without cause: a cycle kills or halts only on a fall of 750 or more with exposure
   or something armed, flattens everyone only with exposure, and stops only bleeding sleeves.
   */
  lemma HaltsOnlyOnBreach(acts: seq<Action>, registry: seq<Id>)
    ensures var s := Run(STOPPED, acts, registry);
      && (s.pc.ToKill? || s.pc.Flattening? || s.pc.ToHalt? ==>
            s.pc.a.drawdown <= -750.0 && (s.pc.a.gross > 0.0 || s.pc.a.armed != {}))
      && (s.pc.Flattening? ==> s.pc.a.gross > 0.0)
      && (s.pc.ToStop? || s.pc.ToDisarm? ==>
            forall id :: id in s.pc.stop ==> exists v :: v in s.pc.a.sleeves && v.id == id && Bleeds(v, s.pc.a))
  {
    hide Run, RecordsSound;
    TurnsAlwaysSound(acts, registry);
    var s := Run(STOPPED, acts, registry);
    if s.pc.ToStop? || s.pc.ToDisarm? {
      forall id | id in s.pc.stop ensures exists v :: v in s.pc.a.sleeves && v.id == id && Bleeds(v, s.pc.a) {
        var v :| v in s.pc.a.sleeves && v.id == id && SleeveBreach(s.pc.a, v);
        assert Bleeds(v, s.pc.a);
      }
    }
  }
}
