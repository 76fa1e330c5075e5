/**
 The trading pass's account of exposure (research/service/engine.py:220-260), over every run: it is what was held when
 the pass began and every entry sent since, symbol by symbol and in total, so no cycle enters more than the cap.
 */
module LiveExposure {
  import opened Reals
  import opened LiveControls
  import opened LiveEngine
  import opened LiveRisk

  /** The value of a cycle's entries: in one symbol, or in all. */
  function Entered(sent: seq<Order>, cycle: nat, sym: Option<nat>): real {
    if |sent| == 0 then 0.0
    else
      var o := sent[|sent| - 1];
      var counts := o.kind == Entry && o.cycle == cycle && (sym.None? || o.sym == sym.value);
      Entered(sent[..|sent| - 1], cycle, sym) + if counts then o.value else 0.0
  }

  /** The estimate is the exposure at the start and what has been entered since. */
  ghost predicate Accounts(x: Exposure, sent: seq<Order>, cycle: nat) {
    && |x.weights| == |x.start|
    && x.gross == Sum(AbsAll(x.start)) + Entered(sent, cycle, None)
    && forall k :: 0 <= k < |x.start| ==> x.weights[k] == x.start[k] + Entered(sent, cycle, Some(k))
  }

  ghost predicate Known(work: seq<Item>, x: Exposure) {
    forall i :: 0 <= i < |work| ==> work[i].sym < |x.weights|
  }

  ghost predicate PassAccounts(s: Engine) {
    match s.pc
    case Trading(_, x, work) => Accounts(x, s.sent, s.cycle) && Known(work, x)
    case Considering(_, x, work) => Accounts(x, s.sent, s.cycle) && Known(work, x)
    case Submitting(_, x, rest, order) =>
      Accounts(x, s.sent, s.cycle) && Known(rest, x) && order.sym < |x.weights| && order.cycle == s.cycle
    case Idle => true
    case _ => NoneEntered(s.sent, s.cycle)
  }

  /** No entry of this cycle has been sent. */
  ghost predicate NoneEntered(sent: seq<Order>, cycle: nat) {
    forall i :: 0 <= i < |sent| && sent[i].kind == Entry ==> sent[i].cycle != cycle
  }

  ghost predicate CyclesPast(s: Engine) {
    forall i :: 0 <= i < |s.sent| ==> s.sent[i].cycle <= s.cycle
  }

  ghost predicate EntriesCapped(sent: seq<Order>) {
    forall cycle :: Entered(sent, cycle, None) <= MAX_GROSS_USD
  }

  lemma EnteredNext(sent: seq<Order>, o: Order, cycle: nat, sym: Option<nat>)
    ensures Entered(sent + [o], cycle, sym)
         == Entered(sent, cycle, sym)
            + if o.kind == Entry && o.cycle == cycle && (sym.None? || o.sym == sym.value) then o.value else 0.0
  {
    assert (sent + [o])[..|sent|] == sent;
  }

  lemma {:induction false} NoneIsZero(sent: seq<Order>, cycle: nat, sym: Option<nat>)
    requires NoneEntered(sent, cycle)
    ensures Entered(sent, cycle, sym) == 0.0
  {
    if |sent| > 0 {
      NoneIsZero(sent[..|sent| - 1], cycle, sym);
    }
  }

  lemma PassBegins(w: seq<real>, sent: seq<Order>, cycle: nat)
    requires NoneEntered(sent, cycle)
    ensures Accounts(Exposure(w, Sum(AbsAll(w)), w), sent, cycle)
  {
    NoneIsZero(sent, cycle, None);
    forall k: nat ensures Entered(sent, cycle, Some(k)) == 0.0 {
      NoneIsZero(sent, cycle, Some(k));
    }
    hide Entered;
  }

  lemma SpendAccounts(x: Exposure, sent: seq<Order>, cycle: nat, order: Order, n: nat)
    requires Accounts(x, sent, cycle) && order.cycle == cycle && order.sym < |x.weights|
    ensures Accounts(Spend(x, order), sent + [order.(seqNo := n)], cycle)
  {
    hide Entered, Sum;
    var o := order.(seqNo := n);
    EnteredNext(sent, o, cycle, None);
    forall k: nat ensures Entered(sent + [o], cycle, Some(k))
                       == Entered(sent, cycle, Some(k)) + if o.kind == Entry && o.sym == k then o.value else 0.0 {
      EnteredNext(sent, o, cycle, Some(k));
    }
  }

  lemma CloseAccounts(x: Exposure, sent: seq<Order>, cycle: nat, o: Order)
    requires Accounts(x, sent, cycle) && o.kind == Close
    ensures Accounts(x, sent + [o], cycle)
  {
    hide Entered, Sum;
    EnteredNext(sent, o, cycle, None);
    forall k: nat ensures Entered(sent + [o], cycle, Some(k)) == Entered(sent, cycle, Some(k)) {
      EnteredNext(sent, o, cycle, Some(k));
    }
  }

  lemma {:induction false} Admitted(work: seq<Item>, armed: set<Id>, symbols: nat)
    ensures forall i :: 0 <= i < |Admit(work, armed, symbols)| ==>
              Admit(work, armed, symbols)[i].sym < symbols && Admit(work, armed, symbols)[i].id in armed
  {
    if |work| > 0 {
      Admitted(work[1..], armed, symbols);
    }
  }

  // ---------------------------------------------------------------------------------- every step

  /** Nothing is sent but perhaps a close of this cycle. */
  ghost predicate JustCloses(s: Engine, s': Engine) {
    && s'.cycle == s.cycle
    && (s'.sent == s.sent
        || exists o :: s'.sent == s.sent + [o] && o.kind == Close && o.cycle == s.cycle)
  }

  ghost predicate Sound(s: Engine) {
    PassAccounts(s) && CyclesPast(s) && EntriesCapped(s.sent)
  }

  lemma ClosesKeep(s: Engine, s': Engine)
    requires CyclesPast(s) && EntriesCapped(s.sent) && JustCloses(s, s')
    ensures CyclesPast(s') && EntriesCapped(s'.sent)
    ensures NoneEntered(s.sent, s.cycle) ==> NoneEntered(s'.sent, s.cycle)
    ensures forall x :: Accounts(x, s.sent, s.cycle) ==> Accounts(x, s'.sent, s.cycle)
  {
    hide Entered, Accounts;
    if s'.sent != s.sent {
      var o :| s'.sent == s.sent + [o] && o.kind == Close && o.cycle == s.cycle;
      forall cycle ensures Entered(s'.sent, cycle, None) == Entered(s.sent, cycle, None) {
        EnteredNext(s.sent, o, cycle, None);
      }
      forall x | Accounts(x, s.sent, s.cycle) ensures Accounts(x, s'.sent, s.cycle) {
        CloseAccounts(x, s.sent, s.cycle, o);
      }
    }
  }

  lemma SamePlaceKeeps(s: Engine, s': Engine)
    requires Sound(s) && JustCloses(s, s') && s'.pc == s.pc
    ensures Sound(s')
  {
    hide Accounts, NoneEntered, CyclesPast, EntriesCapped, JustCloses, Known;
    ClosesKeep(s, s');
    assert s'.cycle == s.cycle by {
      SameCycle(s, s');
    }
  }

  lemma SameCycle(s: Engine, s': Engine)
    requires JustCloses(s, s')
    ensures s'.cycle == s.cycle
  {}

  predicate Passing(pc: Pc) {
    pc.Trading? || pc.Considering? || pc.Submitting?
  }

  lemma RiskJustCloses(s: Engine, e: Env, registry: seq<Id>)
    ensures JustCloses(s, Risk(s, e, registry))
    ensures !Passing(s.pc) ==> !Passing(Risk(s, e, registry).pc)
  {
    hide Assess, Assessed, Breach, Bleeding, TakeTurn;
    var s' := Risk(s, e, registry);
    if s.pc.Flattening? && s.pc.todo != [] {
      TurnShape(s, e, s.pc.todo[0], s.pc.c);
    }
    if s.pc.ToStop? && s.pc.stop != [] {
      TurnShape(s, e, s.pc.stop[0], s.pc.c);
    }
    if s'.sent != s.sent {
      assert s'.sent == s.sent + [s'.sent[|s.sent|]];
    }
  }

  lemma RiskKeeps(s: Engine, e: Env, registry: seq<Id>)
    requires Sound(s) && !Passing(s.pc) && !s.pc.Idle?
    ensures Sound(Risk(s, e, registry))
  {
    var s' := Risk(s, e, registry);
    hide Risk, JustCloses, Accounts, NoneEntered, CyclesPast, EntriesCapped, Known;
    RiskJustCloses(s, e, registry);
    ClosesKeep(s, s');
    SameCycle(s, s');
  }

  lemma RefreshKeeps(s: Engine, e: Env, registry: seq<Id>)
    requires Sound(s) && s.pc.Idle?
    ensures Sound(Refresh(s, e, registry))
  {
    hide EntriesCapped, CoversRegistry;
  }

  lemma EntryStaysCapped(x: Exposure, s: Engine, o: Order)
    requires Accounts(x, s.sent, s.cycle) && EntriesCapped(s.sent) && o.cycle == s.cycle
    requires o.kind == Entry ==> x.gross + o.value <= MAX_GROSS_USD
    ensures EntriesCapped(s.sent + [o])
  {
    hide Entered;
    SumNotNegative(AbsAll(x.start));
    hide Sum, AbsAll;
    forall cycle ensures Entered(s.sent + [o], cycle, None) <= MAX_GROSS_USD {
      EnteredNext(s.sent, o, cycle, None);
    }
  }

  lemma SubmitKeeps(s: Engine, e: Env)
    requires Sound(s) && s.pc.Submitting? && s.drawn.Some? && PassSound(s)
    ensures Sound(Pass(s, e))
  {
    hide Entered, Accounts, EntriesCapped, Spend, ExposureSound;
    var o := s.pc.order.(seqNo := s.drawn.value);
    SpendSize(s.pc.x, s.pc.order);
    if e.accepted {
      SpendAccounts(s.pc.x, s.sent, s.cycle, s.pc.order, s.drawn.value);
      EntryStaysCapped(s.pc.x, s, o);
    }
  }

  lemma SpendSize(x: Exposure, o: Order)
    ensures |Spend(x, o).weights| == |x.weights|
  {}

  lemma PassKeeps(s: Engine, e: Env)
    requires Sound(s) && PassSound(s) && (Passing(s.pc) || s.pc.ToTrade?)
    ensures Sound(Pass(s, e))
  {
    if s.pc.ToTrade? {
      PassBegins(s.pc.weights, s.sent, s.cycle);
      Admitted(e.work, s.ctl.armed, |s.pc.weights|);
    }
    if s.pc.Submitting? && s.drawn.Some? {
      SubmitKeeps(s, e);
    } else {
      hide Accounts, EntriesCapped, Admit, Intent, SleeveDrawdown, NextSeq, Sum, PassSound, NoneEntered;
    }
  }

  lemma ApiJustCloses(s: Engine, act: Action, registry: seq<Id>)
    requires !act.Tick?
    ensures var s' := Do(s, act, registry); JustCloses(s, s') && s'.pc == s.pc
  {
    hide NextSeq, CoversRegistry;
  }

  lemma StepKeepsAccounts(s: Engine, act: Action, registry: seq<Id>)
    requires Sound(s) && PassSound(s)
    ensures Sound(Do(s, act, registry))
  {
    hide Sound, PassSound, Risk, Pass, Refresh, JustCloses;
    if !act.Tick? {
      ApiJustCloses(s, act, registry);
      SamePlaceKeeps(s, Do(s, act, registry));
    } else if s.pc.Idle? {
      RefreshKeeps(s, act.env, registry);
    } else if s.pc.ToTrade? || Passing(s.pc) {
      PassKeeps(s, act.env);
    } else {
      RiskKeeps(s, act.env, registry);
    }
  }

  /**
   Over every run: in a trading pass the estimate is the exposure it began with and the entries it has sent, symbol by
   symbol and in total; and the entries of no cycle add up to more than the gross cap.
   */
  lemma {:induction false} EntriesAlwaysCapped(acts: seq<Action>, registry: seq<Id>)
    ensures var s := Run(STOPPED, acts, registry); PassAccounts(s) && CyclesPast(s) && EntriesCapped(s.sent)
  {
    if |acts| > 0 {
      hide Do, PassAccounts, CyclesPast, EntriesCapped, PassSound;
      var n := |acts| - 1;
      EntriesAlwaysCapped(acts[..n], registry);
      GrossStaysCapped(acts[..n], registry);
      StepKeepsAccounts(Run(STOPPED, acts[..n], registry), acts[n], registry);
    }
  }
}
