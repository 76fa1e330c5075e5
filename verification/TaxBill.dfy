/**
 Wash sales and the tax bill (research/mds/taxaware.py, `flag_wash_sales`, `_tax_bill` and `tax_summary`).
 */
module TaxBill {
  import opened Reals
  import opened TaxLots

  /** The symbol is bought again within `window` days after the event. */
  ghost predicate Repurchased(e: Event, buys: seq<(int, nat)>, window: int) {
    exists k :: 0 <= k < |buys| && buys[k].1 == e.symbol && buys[k].0 > e.date && buys[k].0 - e.date <= window
  }

  /** The event as the rule leaves it: a loss with a repurchase is disallowed, all else is as it was. */
  ghost function Flagged(e: Event, buys: seq<(int, nat)>, window: int): Event {
    if e.Gain() < 0.0 && Repurchased(e, buys, window) then e.(disallowed := true) else e
  }

  class SimResult {
    var events: seq<Event>
    const buys: seq<(int, nat)>

    constructor (events: seq<Event>, buys: seq<(int, nat)>)
      ensures this.events == events && this.buys == buys
    {
      this.events := events;
      this.buys := buys;
    }

    /** The repurchase dates of each symbol. */
    method BuysBySymbol() returns (bySymbol: map<nat, seq<int>>)
      ensures forall s, d :: s in bySymbol && d in bySymbol[s] ==> (d, s) in buys
      ensures forall k :: 0 <= k < |buys| ==> buys[k].1 in bySymbol && buys[k].0 in bySymbol[buys[k].1]
    {
      bySymbol := map[];
      for k := 0 to |buys|
        invariant forall s, d :: s in bySymbol && d in bySymbol[s] ==> (d, s) in buys
        invariant forall j :: 0 <= j < k ==> buys[j].1 in bySymbol && buys[j].0 in bySymbol[buys[j].1]
      {
        var (d, s) := buys[k];
        var dates := (if s in bySymbol then bySymbol[s] else []) + [d];
        assert buys[k] in buys;
        bySymbol := bySymbol[s := dates];
      }
    }

    method FlagWashSales(window: int)
      modifies this`events
      ensures |events| == |old(events)|
      ensures forall i :: 0 <= i < |events| ==> events[i] == Flagged(old(events)[i], buys, window)
    {
      var bySymbol := BuysBySymbol();
      var i := 0;
      while i < |events|
        invariant i <= |events| == |old(events)|
        invariant forall j :: 0 <= j < i ==> events[j] == Flagged(old(events)[j], buys, window)
        invariant forall j :: i <= j < |events| ==> events[j] == old(events)[j]
      {
        var e := events[i];
        if e.Gain() < 0.0 {
          var dates := if e.symbol in bySymbol then bySymbol[e.symbol] else [];
          var k := 0;
          while k < |dates| && !(dates[k] > e.date && dates[k] - e.date <= window)
            invariant k <= |dates|
            invariant forall j :: 0 <= j < k ==> !(dates[j] > e.date && dates[j] - e.date <= window)
          {
            k := k + 1;
          }
          if k < |dates| {
            assert dates[k] in bySymbol[e.symbol];
            assert (dates[k], e.symbol) in buys;
            assert Repurchased(e, buys, window);
            events := events[i := e.(disallowed := true)];
          } else {
            assert !Repurchased(e, buys, window) by {
              forall b | 0 <= b < |buys| && buys[b].1 == e.symbol
                ensures !(buys[b].0 > e.date && buys[b].0 - e.date <= window)
              {
                assert buys[b].0 in bySymbol[e.symbol];
              }
            }
          }
        }
        i := i + 1;
      }
    }
  }

  // ------------------------------------------------------------------------------------ the bill

  datatype Bill = Bill(tax: real, taxableShort: real, taxableLong: real, carryforward: real)

  /** Nets each bucket's remaining loss against the other bucket's gain, then taxes what is positive. */
  function TaxBill(shortGain: real, longGain: real, shortRate: real, longRate: real): Bill {
    var applied := if shortGain < 0.0 < longGain then Min(-shortGain, longGain)
                   else if longGain < 0.0 < shortGain then -Min(-longGain, shortGain) else 0.0;
    var st, lt := shortGain + applied, longGain - applied;
    var taxableShort, taxableLong := Max(st, 0.0), Max(lt, 0.0);
    Bill(taxableShort * shortRate + taxableLong * longRate, taxableShort, taxableLong, Min(st, 0.0) + Min(lt, 0.0))
  }

  predicate Deductible(e: Event) {
    !(e.disallowed && e.Gain() < 0.0)
  }

  /** Gains of the events in one holding-period bucket, less disallowed losses. */
  function Bucket(events: seq<Event>, longTerm: bool): real {
    if |events| == 0 then 0.0
    else
      var e := events[|events| - 1];
      Bucket(events[..|events| - 1], longTerm) + (if e.longTerm == longTerm && Deductible(e) then e.Gain() else 0.0)
  }

  function RealizedGain(events: seq<Event>): real {
    if |events| == 0 then 0.0 else RealizedGain(events[..|events| - 1]) + events[|events| - 1].Gain()
  }

  function Disallowed(events: seq<Event>): real {
    if |events| == 0 then 0.0
    else
      var e := events[|events| - 1];
      Disallowed(events[..|events| - 1]) + (if Deductible(e) then 0.0 else -e.Gain())
  }

  function Summary(events: seq<Event>, shortRate: real, longRate: real): Bill {
    TaxBill(Bucket(events, false), Bucket(events, true), shortRate, longRate)
  }

  lemma {:induction false} BucketsCoverLedger(events: seq<Event>)
    ensures Bucket(events, false) + Bucket(events, true) == RealizedGain(events) + Disallowed(events)
  {
    if |events| > 0 {
      BucketsCoverLedger(events[..|events| - 1]);
    }
  }

  /** Every realized dollar is taxed, carried forward or disallowed; and nothing is taxed while a loss is
      left to carry. */
  lemma BillConservesGain(events: seq<Event>, shortRate: real, longRate: real)
    ensures var bill := Summary(events, shortRate, longRate);
      && bill.taxableShort + bill.taxableLong + bill.carryforward == RealizedGain(events) + Disallowed(events)
      && bill.carryforward <= 0.0 <= bill.taxableShort && 0.0 <= bill.taxableLong
      && (bill.carryforward < 0.0 ==> bill.taxableShort == bill.taxableLong == 0.0)
  {
    BucketsCoverLedger(events);
  }

  /**
   What the netting leaves: two gains each pay their own rate, a bucket's loss first comes off the other's gain and the
   rest of that pays its own rate, and a net loss pays nothing and is carried forward whole.
   */
  lemma EachGainPaysItsRate(st: real, lt: real, shortRate: real, longRate: real)
    ensures var bill := TaxBill(st, lt, shortRate, longRate);
      && bill.carryforward == Min(st + lt, 0.0)
      && bill.tax == if st + lt <= 0.0 then 0.0
                     else if lt <= 0.0 then (st + lt) * shortRate
                     else if st <= 0.0 then (st + lt) * longRate
                     else st * shortRate + lt * longRate
  {}

  lemma {:induction false} OtherBucketIsEmpty(events: seq<Event>, longTerm: bool)
    requires forall i :: 0 <= i < |events| ==> events[i].longTerm == longTerm
    ensures Bucket(events, !longTerm) == 0.0
  {
    if |events| > 0 {
      OtherBucketIsEmpty(events[..|events| - 1], longTerm);
    }
  }

  /** A ledger of one holding period pays that period's rate on its deductible net gain. */
  lemma OneTermPaysItsRate(events: seq<Event>, longTerm: bool, shortRate: real, longRate: real)
    requires forall i :: 0 <= i < |events| ==> events[i].longTerm == longTerm
    ensures Summary(events, shortRate, longRate).tax
         == Max(RealizedGain(events) + Disallowed(events), 0.0) * (if longTerm then longRate else shortRate)
  {
    BucketsCoverLedger(events);
    OtherBucketIsEmpty(events, longTerm);
    OneGainPaysItsRate(RealizedGain(events) + Disallowed(events), longTerm, shortRate, longRate);
    hide Bucket, RealizedGain, Disallowed, TaxBill;
  }

  lemma OneGainPaysItsRate(gain: real, longTerm: bool, shortRate: real, longRate: real)
    ensures TaxBill(if longTerm then 0.0 else gain, if longTerm then gain else 0.0, shortRate, longRate).tax
         == Max(gain, 0.0) * (if longTerm then longRate else shortRate)
  {}

  /** More gain in either bucket never lowers the tax. */
  lemma TaxMonotone(st: real, lt: real, st': real, lt': real, shortRate: real, longRate: real)
    requires st <= st' && lt <= lt' && shortRate >= 0.0 && longRate >= 0.0
    ensures TaxBill(st, lt, shortRate, longRate).tax <= TaxBill(st', lt', shortRate, longRate).tax
  {
    var a, b := TaxBill(st, lt, shortRate, longRate), TaxBill(st', lt', shortRate, longRate);
    assert a.taxableShort <= b.taxableShort && a.taxableLong <= b.taxableLong;
    PayMono(a.taxableShort, b.taxableShort, a.taxableLong, b.taxableLong, shortRate, longRate);
  }

  lemma PayMono(x: real, x': real, y: real, y': real, r: real, s: real)
    requires x <= x' && y <= y' && 0.0 <= r && 0.0 <= s
    ensures x * r + y * s <= x' * r + y' * s
  {
    MulMono(r, x, x');
    MulMono(s, y, y');
  }

  /** The same ledger with some more losses disallowed. */
  ghost predicate MoreDisallowed(before: seq<Event>, after: seq<Event>) {
    && |before| == |after|
    && forall i :: 0 <= i < |before| ==> after[i] == before[i] || after[i] == before[i].(disallowed := true)
  }

  lemma {:induction false} DisallowingRaisesBuckets(before: seq<Event>, after: seq<Event>, longTerm: bool)
    requires MoreDisallowed(before, after)
    ensures Bucket(before, longTerm) <= Bucket(after, longTerm)
    ensures RealizedGain(before) == RealizedGain(after)
  {
    if |before| > 0 {
      DisallowingRaisesBuckets(before[..|before| - 1], after[..|after| - 1], longTerm);
    }
  }

  /** Flagging wash sales never lowers the bill and leaves the realized gain alone. */
  lemma WashSalesNeverCutTax(before: seq<Event>, after: seq<Event>, buys: seq<(int, nat)>, window: int,
                             shortRate: real, longRate: real)
    requires |before| == |after| && forall i :: 0 <= i < |before| ==> after[i] == Flagged(before[i], buys, window)
    requires shortRate >= 0.0 && longRate >= 0.0
    ensures Summary(before, shortRate, longRate).tax <= Summary(after, shortRate, longRate).tax
    ensures RealizedGain(before) == RealizedGain(after)
  {
    DisallowingRaisesBuckets(before, after, false);
    DisallowingRaisesBuckets(before, after, true);
    TaxMonotone(Bucket(before, false), Bucket(before, true), Bucket(after, false), Bucket(after, true),
                shortRate, longRate);
  }
}
