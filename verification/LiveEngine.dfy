/**
 The live engine's background loop interleaved with its API (research/service/engine.py): `run_once` advances one
 critical section, broker call or check at a time, and any control may be pressed between any two of them.
 Drawing an order's number and submitting the order are two steps, for the loop and for the API's closes alike.
 The broker is the environment: it supplies books, positions, quotes and whether an order goes through.
 */
module LiveEngine {
  import opened Reals
  import opened LiveControls

  datatype Kind = Entry | Exit | Close

  /** An order sent. `drawdown`, `sleeveDrawdown` and `late` record what the cycle knew when the order's last
      check passed: the assessed drawdowns, and whether this strategy had been armed since the assessment. */
  datatype Order = Order(kind: Kind, id: Id, sym: nat, value: real, seqNo: nat, cycle: nat,
                         drawdown: real, sleeveDrawdown: Option<real>, late: bool)

  /** A close the API has drawn a number for and not yet submitted. */
  datatype Ticket = Ticket(id: Id, sym: nat, seqNo: nat)

  /** The trading pass's running estimate of exposure: per symbol and in total; and per symbol when it began. */
  datatype Exposure = Exposure(weights: seq<real>, gross: real, start: seq<real>)

  datatype Item = Item(id: Id, sym: nat)

  /** A strategy's position as the broker reports it when the strategy is flattened: what of it is available, and
      whether a close is already working. */
  datatype Holding = Holding(sym: nat, qty: real, available: real, working: bool)

  /** A close drawn and submitted in a strategy's turn to be flattened; the broker may have turned it away. */
  datatype Submission = Submission(sym: nat, seqNo: nat, accepted: bool)

  /** A strategy's turn under way: the positions not read yet, or read and so many of them closed. */
  datatype Closing = NotRead | Closing(holdings: seq<Holding>, closes: seq<Submission>)

  /** A finished turn; without holdings when the positions could not be read. */
  datatype Turn = Turn(id: Id, holdings: Option<seq<Holding>>, closes: seq<Submission>)

  /** The point reached in `run_once`. */
  datatype Pc =
    | Idle
    | ToAssess(weights: seq<real>)
    | ToReadHalt(a: Assessment)
    | ToKill(a: Assessment)
    | Flattening(a: Assessment, todo: seq<Id>, c: Closing)
    | ToHalt(a: Assessment)
    | ToStop(a: Assessment, stop: seq<Id>, weights: seq<real>, c: Closing)
    | ToDisarm(a: Assessment, stop: seq<Id>, weights: seq<real>)
    | ToClear(a: Assessment, weights: seq<real>)
    | ToGate(a: Assessment, weights: seq<real>)
    | ToTrade(a: Assessment, weights: seq<real>)
    | Trading(a: Assessment, x: Exposure, work: seq<Item>)
    | Considering(a: Assessment, x: Exposure, work: seq<Item>)
    | Submitting(a: Assessment, x: Exposure, rest: seq<Item>, order: Order)

  /**
   `drawn` is a number the loop has drawn for an order it is about to submit, and `desk` the API's closes in
   the same position. The rest is history: the numbers issued, the strategies armed since the last assessment, the
   books assessed since the last resume, and the current cycle's assessment and finished turns.
   */
  datatype Engine = Engine(ctl: Controls, pc: Pc, sent: seq<Order>, cycle: nat, lastSeq: nat,
                           drawn: Option<nat>, desk: seq<Ticket>, issued: seq<nat>,
                           late: set<Id>, seen: seq<seq<Row>>, assessed: Option<Assessment>, turns: seq<Turn>)

  const STOPPED := Engine(INITIAL, Idle, [], 0, 0, None, [], [], {}, [], None, [])

  /** What the signal and the position of one symbol say, as the pass reads them. */
  datatype Quote = Quote(sign: int, held: real, price: real, qty: real, volOk: bool, available: real)

  /** Everything the environment decides about one step of the loop. */
  datatype Env = Env(rows: Option<seq<Row>>, weights: seq<real>, work: seq<Item>, quote: Option<Quote>,
                     holdings: Option<seq<Holding>>, accepted: bool, clock: nat)

  datatype Action =
    | ApiArm(id: Id) | ApiDisarm(id: Id) | ApiKill | ApiResume
    | ApiRefresh(rows: seq<Row>)                 // books rebuilt after a promotion
    | ApiDraw(id: Id, sym: nat, clock: nat)                // a close draws its number
    | ApiSubmit(k: nat, accepted: bool)          // one of the closes so numbered reaches the broker
    | Tick(env: Env)

  /** Enter on a flip to long within the caps, exit on a flip to flat, otherwise nothing. */
  function Intent(q: Quote, gross: real): Option<Kind> {
    var inPosition := Abs(q.held) * q.price >= MIN_ORDER_USD;
    if q.sign == 1 && !inPosition then
      if q.qty * q.price < MIN_ORDER_USD || gross + q.qty * q.price > MAX_GROSS_USD || !q.volOk then None
      else Some(Entry)
    else if q.sign == 0 && inPosition then
      if q.available <= 0.0 then None else Some(Exit)
    else None
  }

  function NextSeq(last: nat, clock: nat): nat {
    if clock <= last then last + 1 else clock
  }

  function Issue(s: Engine, clock: nat): Engine {
    var n := NextSeq(s.lastSeq, clock);
    s.(lastSeq := n, issued := s.issued + [n])
  }

  /** The loop draws a number. */
  function Draw(s: Engine, clock: nat): Engine {
    var s' := Issue(s, clock);
    s'.(drawn := Some(s'.lastSeq))
  }

  /** The loop submits an order under the number it has drawn; the broker may turn it away. */
  function Submit(s: Engine, o: Order, accepted: bool): Engine
    requires s.drawn.Some?
  {
    s.(sent := if accepted then s.sent + [o.(seqNo := s.drawn.value)] else s.sent, drawn := None)
  }

  function CloseOrder(s: Engine, id: Id, sym: nat, n: nat): Order {
    Order(Close, id, sym, 0.0, n, s.cycle, 0.0, None, false)
  }

  /** The positions to close: open, with something available, and no close working already. */
  function ToClose(holdings: seq<Holding>): seq<nat> {
    if |holdings| == 0 then []
    else
      var h := holdings[0];
      (if h.qty == 0.0 || h.available <= 0.0 || h.working then [] else [h.sym]) + ToClose(holdings[1..])
  }

  /** One step of a strategy's turn: read the positions, then draw and submit one close after the other. The turn that
      is left, or None when it is over. */
  function TakeTurn(s: Engine, e: Env, id: Id, c: Closing): (Engine, Option<Closing>) {
    match c
    case NotRead =>
      if e.holdings.None? then (s.(turns := s.turns + [Turn(id, None, [])]), None)
      else (s, Some(Closing(e.holdings.value, [])))
    case Closing(holdings, closes) =>
      var todo, k := ToClose(holdings), |closes|;
      if k >= |todo| then (s.(turns := s.turns + [Turn(id, Some(holdings), closes)]), None)
      else if s.drawn.None? then (Draw(s, e.clock), Some(c))
      else
        var close := Submission(todo[k], s.drawn.value, e.accepted);
        (Submit(s, CloseOrder(s, id, todo[k], 0), e.accepted), Some(Closing(holdings, closes + [close])))
  }

  function SleeveDrawdown(sleeves: seq<Sleeve>, id: Id): Option<real> {
    if |sleeves| == 0 then None
    else if sleeves[0].id == id then Some(sleeves[0].drawdown)
    else SleeveDrawdown(sleeves[1..], id)
  }

  /** The work items the environment proposes that are for armed strategies and known symbols. */
  function Admit(work: seq<Item>, armed: set<Id>, symbols: nat): seq<Item> {
    if |work| == 0 then []
    else (if work[0].id in armed && work[0].sym < symbols then [work[0]] else []) + Admit(work[1..], armed, symbols)
  }

  function IdsOf(registry: seq<Id>): (ids: set<Id>)
    ensures forall id :: id in ids <==> id in registry
  {
    set id | id in registry
  }

  /** Books have one row per registered strategy. */
  predicate CoversRegistry(rows: seq<Row>, registry: seq<Id>) {
    IdsOf(registry) == set r | r in rows :: r.id
  }

  /** The start of a cycle: books and positions are refreshed, or the positions are unknown and it ends. */
  function Refresh(s: Engine, e: Env, registry: seq<Id>): Engine {
    var s' := s.(cycle := s.cycle + 1, assessed := None, turns := []);
    if e.rows.None? || !CoversRegistry(e.rows.value, registry) then s'
    else s'.(ctl := s.ctl.(books := e.rows.value), pc := ToAssess(e.weights))
  }

  /** The risk check, one section at a time. */
  function Risk(s: Engine, e: Env, registry: seq<Id>): Engine {
    match s.pc
    case ToAssess(w) =>
      var a := Assess(s.ctl);
      s.(ctl := Assessed(s.ctl), seen := s.seen + [s.ctl.books], late := {}, assessed := Some(a),
         pc := if Breach(a) then ToReadHalt(a) else ToStop(a, Bleeding(a, a.sleeves), w, NotRead))
    case ToReadHalt(a) => s.(pc := if !s.ctl.riskHalt then ToKill(a) else Flatten(a, registry))
    case ToKill(a) => s.(ctl := Kill(s.ctl), pc := Flatten(a, registry))
    case Flattening(a, todo, c) =>
      if todo == [] then s.(pc := ToHalt(a))
      else
        var (s', left) := TakeTurn(s, e, todo[0], c);
        s'.(pc := if left.None? then Flattening(a, todo[1..], NotRead) else Flattening(a, todo, left.value))
    case ToHalt(_) => s.(ctl := s.ctl.(riskHalt := true), pc := Idle)
    case ToStop(a, stop, w, c) =>
      if stop == [] then s.(pc := ToClear(a, w))
      else
        var (s', left) := TakeTurn(s, e, stop[0], c);
        s'.(pc := if left.None? then ToDisarm(a, stop, w) else ToStop(a, stop, w, left.value))
    case ToDisarm(a, stop, w) =>
      if stop == [] then s.(pc := ToClear(a, w))
      else s.(ctl := Disarm(s.ctl, stop[0]), pc := ToStop(a, stop[1..], w, NotRead))
    case ToClear(a, w) => s.(ctl := s.ctl.(riskHalt := false), pc := ToGate(a, w))
    case ToGate(a, w) => s.(pc := if s.ctl.kill || s.ctl.armed == {} then Idle else ToTrade(a, w))
    case _ => s
  }

  /** Every registered strategy is flattened, one after the other, while there is exposure. */
  function Flatten(a: Assessment, registry: seq<Id>): Pc {
    if a.gross > 0.0 then Flattening(a, registry, NotRead) else ToHalt(a)
  }

  /** The trading pass: each item passes the halt check, is considered, passes the check again, and is sent. */
  function Pass(s: Engine, e: Env): Engine {
    match s.pc
    case ToTrade(a, w) =>
      var gross := Sum(AbsAll(w));
      s.(pc := Trading(a, Exposure(w, gross, w), Admit(e.work, s.ctl.armed, |w|)))
    case Trading(a, x, work) =>
      s.(pc := if work == [] || Halted(s.ctl, work[0].id) then Idle else Considering(a, x, work))
    case Considering(a, x, work) =>
      if work == [] || e.quote.None? || Intent(e.quote.value, x.gross).None?
      then s.(pc := Trading(a, x, if work == [] then [] else work[1..]))
      else if Halted(s.ctl, work[0].id) then s.(pc := Idle)
      else
        var q, kind, id := e.quote.value, Intent(e.quote.value, x.gross).value, work[0].id;
        var order := Order(kind, id, work[0].sym, if kind == Entry then q.qty * q.price else 0.0, 0, s.cycle,
                           a.drawdown, SleeveDrawdown(a.sleeves, id), id in s.late);
        s.(pc := Submitting(a, x, work[1..], order))
    case Submitting(a, x, rest, order) =>
      if s.drawn.None? then Draw(s, e.clock)
      else Submit(s, order, e.accepted).(pc := Trading(a, if e.accepted then Spend(x, order) else x, rest))
    case _ => s
  }

  /** The exposure after an order is sent: only entries add to it. */
  function Spend(x: Exposure, order: Order): Exposure {
    if order.kind == Entry && order.sym < |x.weights|
    then Exposure(x.weights[order.sym := x.weights[order.sym] + order.value], x.gross + order.value, x.start)
    else x
  }

  function Do(s: Engine, act: Action, registry: seq<Id>): Engine {
    match act
    case ApiArm(id) => s.(ctl := Arm(s.ctl, registry, id), late := s.late + {id})
    case ApiDisarm(id) => s.(ctl := Disarm(s.ctl, id))
    case ApiKill => s.(ctl := Kill(s.ctl))
    case ApiResume => s.(ctl := Resume(s.ctl), seen := [])
    case ApiRefresh(rows) => if CoversRegistry(rows, registry) then s.(ctl := s.ctl.(books := rows)) else s
    case ApiDraw(id, sym, clock) =>
      var s' := Issue(s, clock);
      s'.(desk := s.desk + [Ticket(id, sym, s'.lastSeq)])
    case ApiSubmit(k, accepted) =>
      if k >= |s.desk| then s
      else
        var rest, t := s.desk[..k] + s.desk[k + 1..], s.desk[k];
        var o := CloseOrder(s, t.id, t.sym, t.seqNo);
        s.(desk := rest, sent := if accepted then s.sent + [o] else s.sent)
    case Tick(e) =>
      if s.pc.Idle? then Refresh(s, e, registry)
      else if s.pc.ToTrade? || s.pc.Trading? || s.pc.Considering? || s.pc.Submitting? then Pass(s, e)
      else Risk(s, e, registry)
  }

  function Run(s: Engine, acts: seq<Action>, registry: seq<Id>): Engine {
    if |acts| == 0 then s else Do(Run(s, acts[..|acts| - 1], registry), acts[|acts| - 1], registry)
  }

  // --------------------------------------------------------------------------- the latched kill

  /** Entries and exits among the orders sent. */
  function Trades(sent: seq<Order>): nat {
    if |sent| == 0 then 0 else Trades(sent[..|sent| - 1]) + (if sent[|sent| - 1].kind == Close then 0 else 1)
  }

  /** Entries and exits of one strategy. */
  function TradesOf(sent: seq<Order>, id: Id): nat {
    if |sent| == 0 then 0
    else
      var o := sent[|sent| - 1];
      TradesOf(sent[..|sent| - 1], id) + (if o.kind != Close && o.id == id then 1 else 0)
  }

  /** An order whose last check has passed and which has not gone out yet. */
  function InFlight(pc: Pc): nat {
    if pc.Submitting? && pc.order.kind != Close then 1 else 0
  }

  function InFlightOf(pc: Pc, id: Id): nat {
    if pc.Submitting? && pc.order.kind != Close && pc.order.id == id then 1 else 0
  }

  /** What one step can do to the orders: nothing, a close, or the order whose last check had passed. */
  ghost predicate Shape(s: Engine, s': Engine) {
    && (s'.sent == s.sent
        || (|s'.sent| == |s.sent| + 1 && s'.sent[..|s.sent|] == s.sent
            && (s'.sent[|s.sent|].kind == Close
                || (s.pc.Submitting? && !s'.pc.Submitting?
                    && s'.sent[|s.sent|] == s.pc.order.(seqNo := s'.sent[|s.sent|].seqNo)))))
    && (s'.pc.Submitting? ==> s'.pc == s.pc || (s.pc.Considering? && !Halted(s.ctl, s'.pc.order.id)))
  }

  /** A step neither resumes nor arms by itself. */
  ghost predicate OnlyTightens(s: Engine, s': Engine) {
    (s.ctl.kill ==> s'.ctl.kill) && s'.ctl.armed <= s.ctl.armed
  }

  /** A step of a turn sends nothing or one close, and changes nothing the controls know. */
  lemma TurnShape(s: Engine, e: Env, id: Id, c: Closing)
    ensures var s' := TakeTurn(s, e, id, c).0;
      && s'.ctl == s.ctl && s'.pc == s.pc && s'.cycle == s.cycle
      && (s'.sent == s.sent
          || (|s'.sent| == |s.sent| + 1 && s'.sent[..|s.sent|] == s.sent
              && s'.sent[|s.sent|].kind == Close && s'.sent[|s.sent|].cycle == s.cycle))
  {
    hide NextSeq, ToClose;
  }

  lemma RiskShape(s: Engine, e: Env, registry: seq<Id>)
    ensures var s' := Risk(s, e, registry); Shape(s, s') && OnlyTightens(s, s') && s'.cycle == s.cycle
  {
    hide Assess, Breach, Bleeding, NextSeq, TotalPnl, RaiseAll, Raise, TakeTurn;
    if s.pc.Flattening? && s.pc.todo != [] {
      TurnShape(s, e, s.pc.todo[0], s.pc.c);
    }
    if s.pc.ToStop? && s.pc.stop != [] {
      TurnShape(s, e, s.pc.stop[0], s.pc.c);
    }
  }

  lemma PassShape(s: Engine, e: Env)
    ensures Shape(s, Pass(s, e)) && OnlyTightens(s, Pass(s, e))
  {
    hide Intent, SleeveDrawdown, Admit, Sum, NextSeq, Spend;
  }

  lemma StepShape(s: Engine, act: Action, registry: seq<Id>)
    ensures Shape(s, Do(s, act, registry))
    ensures act != ApiResume && s.ctl.kill ==> Do(s, act, registry).ctl.kill
    ensures forall id :: act != ApiArm(id) && id !in s.ctl.armed ==> id !in Do(s, act, registry).ctl.armed
  {
    hide Risk, Pass, CoversRegistry, NextSeq;
    if act.Tick? {
      RiskShape(s, act.env, registry);
      PassShape(s, act.env);
    }
  }

  lemma ShapeTrades(s: Engine, s': Engine, id: Id)
    requires Shape(s, s')
    ensures Trades(s'.sent) <= Trades(s.sent) + InFlight(s.pc)
    ensures TradesOf(s'.sent, id) <= TradesOf(s.sent, id) + InFlightOf(s.pc, id)
    ensures s'.pc == s.pc && s.pc.Submitting? ==> Trades(s'.sent) == Trades(s.sent) && TradesOf(s'.sent, id) == TradesOf(s.sent, id)
  {
    if s'.sent != s.sent {
      assert s'.sent[..|s'.sent| - 1] == s.sent;
    }
  }

  lemma KilledStep(s: Engine, act: Action, registry: seq<Id>)
    requires s.ctl.kill && act != ApiResume
    ensures var s' := Do(s, act, registry);
      s'.ctl.kill && Trades(s'.sent) + InFlight(s'.pc) <= Trades(s.sent) + InFlight(s.pc)
  {
    hide Do, Trades;
    StepShape(s, act, registry);
    ShapeTrades(s, Do(s, act, registry), "");
  }

  /**
   The kill latches: however the loop and the controls interleave, until the next resume the loop sends at
   most the one entry or exit whose last check had already passed. No sequence of arms changes that.
   */
  lemma {:induction false} KillLatches(s: Engine, acts: seq<Action>, registry: seq<Id>)
    requires s.ctl.kill && ApiResume !in acts
    ensures var s' := Run(s, acts, registry);
      s'.ctl.kill && Trades(s'.sent) + InFlight(s'.pc) <= Trades(s.sent) + InFlight(s.pc)
  {
    if |acts| > 0 {
      var n := |acts| - 1;
      assert acts[n] in acts;
      assert forall a :: a in acts[..n] ==> a in acts;
      KillLatches(s, acts[..n], registry);
      KilledStep(Run(s, acts[..n], registry), acts[n], registry);
    }
  }

  /** Orders sent are never taken back, and all later ones carry the current cycle or a later one. */
  lemma {:induction false} SentGrows(s: Engine, acts: seq<Action>, registry: seq<Id>)
    ensures s.sent <= Run(s, acts, registry).sent && s.cycle <= Run(s, acts, registry).cycle
  {
    if |acts| > 0 {
      SentGrows(s, acts[..|acts| - 1], registry);
      StepGrows(Run(s, acts[..|acts| - 1], registry), acts[|acts| - 1], registry);
    }
  }

  lemma StepGrows(s: Engine, act: Action, registry: seq<Id>)
    ensures s.sent <= Do(s, act, registry).sent && s.cycle <= Do(s, act, registry).cycle
  {
    hide Assess, Assessed, Breach, Bleeding, Intent, SleeveDrawdown, Admit, Sum, CoversRegistry;
  }

  /** A cycle begun after the kill trades nothing at all. */
  lemma KilledCyclesAreSilent(s: Engine, acts: seq<Action>, registry: seq<Id>)
    requires s.ctl.kill && s.pc.Idle? && ApiResume !in acts
    ensures Trades(Run(s, acts, registry).sent) == Trades(s.sent)
  {
    KillLatches(s, acts, registry);
    SentGrows(s, acts, registry);
    TradesMono(s.sent, Run(s, acts, registry).sent);
  }

  lemma {:induction false} TradesMono(a: seq<Order>, b: seq<Order>)
    requires a <= b
    ensures Trades(a) <= Trades(b)
  {
    if |a| < |b| {
      TradesMono(a, b[..|b| - 1]);
    } else {
      assert a == b;
    }
  }

  lemma DisarmedStep(s: Engine, act: Action, registry: seq<Id>, id: Id)
    requires id !in s.ctl.armed && act != ApiArm(id)
    ensures var s' := Do(s, act, registry);
      id !in s'.ctl.armed && TradesOf(s'.sent, id) + InFlightOf(s'.pc, id) <= TradesOf(s.sent, id) + InFlightOf(s.pc, id)
  {
    hide Do, TradesOf;
    StepShape(s, act, registry);
    ShapeTrades(s, Do(s, act, registry), id);
  }

  /** A pass begins exactly when some strategy may trade. */
  lemma GateOpensIff(s: Engine, e: Env, registry: seq<Id>)
    requires s.pc.ToGate?
    ensures Do(s, Tick(e), registry).pc.ToTrade? <==> exists id :: !Halted(s.ctl, id)
  {
    if s.ctl.armed != {} && !s.ctl.kill {
      var id :| id in s.ctl.armed;
      assert !Halted(s.ctl, id);
    }
  }

  /** Disarming one strategy stops it the same way, until it is armed again. */
  lemma {:induction false} DisarmStops(s: Engine, acts: seq<Action>, registry: seq<Id>, id: Id)
    requires id !in s.ctl.armed && ApiArm(id) !in acts
    ensures var s' := Run(s, acts, registry);
      id !in s'.ctl.armed && TradesOf(s'.sent, id) + InFlightOf(s'.pc, id) <= TradesOf(s.sent, id) + InFlightOf(s.pc, id)
  {
    if |acts| > 0 {
      var n := |acts| - 1;
      assert acts[n] in acts;
      assert forall a :: a in acts[..n] ==> a in acts;
      DisarmStops(s, acts[..n], registry, id);
      DisarmedStep(Run(s, acts[..n], registry), acts[n], registry, id);
    }
  }

  /** The bound is reached: a kill that lands between an order's last check and its submission does not stop it. */
  lemma KillCanMissOneOrder(s: Engine, e: Env, registry: seq<Id>)
    requires s.pc.Submitting? && s.pc.order.kind != Close && e.accepted
    ensures var killed := Do(s, ApiKill, registry);
      var numbered := if killed.drawn.Some? then killed else Do(killed, Tick(e), registry);
      var sent := Do(numbered, Tick(e), registry).sent;
      killed.ctl.kill && Trades(sent) == Trades(s.sent) + 1
  {
    var killed := Do(s, ApiKill, registry);
    var numbered := if killed.drawn.Some? then killed else Do(killed, Tick(e), registry);
    var sent := Do(numbered, Tick(e), registry).sent;
    assert sent[..|sent| - 1] == s.sent;
  }
}
