/**
 What a sampled row says (research/mds/lob.py:73-147), stated without the replay's own formulas: from the events,
 which quotes rest in the book, which events are changes, when a row is sampled and what its features mean.
 */
module OrderBookRows {
  import opened Reals
  import opened OrderBook

  // ------------------------------------------------------------------------- reading the events

  /** The event starts a new snapshot rather than continuing one. */
  predicate Begins(events: seq<Event>, i: nat)
    requires i < |events|
  {
    events[i].kind == Snapshot && (i == 0 || events[i - 1].kind != Snapshot || events[i - 1].seqNo != events[i].seqNo)
  }

  /** Everything changes the book but snapshot lines and trades; the trade that ends a snapshot does too. */
  predicate IsChange(events: seq<Event>, i: nat)
    requires i < |events|
  {
    match events[i].kind
    case Snapshot => false
    case Trade => i > 0 && events[i - 1].kind == Snapshot
    case _ => true
  }

  ghost function ChangesOf(events: seq<Event>): set<nat> {
    set i: nat | i < |events| && IsChange(events, i)
  }

  /** The last word the events say about a price: None if it was never quoted or was withdrawn. */
  ghost function LastWord(events: seq<Event>, bid: bool, p: Price): Option<real> {
    if |events| == 0 then None
    else
      var n := |events| - 1;
      var e := events[n];
      if (e.kind == Snapshot || e.kind == Update) && e.bid == bid && e.price == p
      then if e.kind == Update && e.size <= 0.0 then None else Some(e.size)
      else if Begins(events, n) then None
      else LastWord(events[..n], bid, p)
  }

  /** A trade's volume: bought at or above the last mid, sold below it. */
  ghost function Signed(e: Event, mid: Option<real>): real {
    if e.kind != Trade || mid.None? then 0.0 else if e.price.v < mid.value then -e.size else e.size
  }

  /** The signed volume of the trades from event `from` on. */
  ghost function Volume(events: seq<Event>, from: nat, c: Config): real
    requires c.sampleEvery > 0
  {
    if |events| <= from then 0.0
    else
      var n := |events| - 1;
      Volume(events[..n], from, c) + Signed(events[n], Run(events[..n], c).lastMid)
  }

  ghost predicate TwoSided(s: Replay) {
    s.bids.Keys != {} && s.asks.Keys != {}
  }

  /** Prices are positive, and so are the sizes a snapshot lists. */
  ghost predicate WellFormed(events: seq<Event>) {
    forall i :: 0 <= i < |events| ==>
      events[i].price.v > 0.0 && (events[i].kind == Snapshot ==> events[i].size > 0.0)
  }

  ghost predicate PositiveSide(book: Side) {
    forall p :: p in book ==> p.v > 0.0 && book[p] > 0.0
  }

  // -------------------------------------------------------------------------- the replay's bookkeeping

  lemma RunNext(events: seq<Event>, c: Config)
    requires |events| > 0 && c.sampleEvery > 0
    ensures Run(events, c) == Step(Run(events[..|events| - 1], c), events[|events| - 1], c)
  {}

  lemma AbsorbMark(s: Replay, e: Event)
    ensures var t := Absorb(s, e).0;
      (t.inSnap <==> e.kind == Snapshot) && (t.inSnap ==> t.snapSeq == Some(e.seqNo))
  {
    hide Quote;
  }

  /** The replay is inside a snapshot exactly after a snapshot line, and knows that line's number. */
  lemma SnapshotMark(events: seq<Event>, c: Config)
    requires c.sampleEvery > 0
    ensures var s := Run(events, c);
      && (s.inSnap <==> |events| > 0 && events[|events| - 1].kind == Snapshot)
      && (s.inSnap ==> s.snapSeq == Some(events[|events| - 1].seqNo))
  {
    if |events| > 0 {
      hide *;
      var n := |events| - 1;
      var s, e := Run(events[..n], c), events[n];
      RunNext(events, c);
      StepIs(s, e, c);
      AbsorbMark(s, e);
      PruneCounts(Absorb(s, e).0, c.cap);
      ObserveCounts(PruneBoth(Absorb(s, e).0, c.cap), e.ts, c);
    }
  }

  lemma ChangedIff(events: seq<Event>, c: Config)
    requires |events| > 0 && c.sampleEvery > 0
    ensures var n := |events| - 1; Absorb(Run(events[..n], c), events[n]).1 <==> IsChange(events, n)
  {
    SnapshotMark(events[..|events| - 1], c);
  }

  lemma ChangesNext(events: seq<Event>)
    requires |events| > 0
    ensures var n := |events| - 1;
      |ChangesOf(events)| == |ChangesOf(events[..n])| + if IsChange(events, n) then 1 else 0
  {
    var n := |events| - 1;
    forall i: nat | i < n ensures IsChange(events, i) <==> IsChange(events[..n], i) {}
    if IsChange(events, n) {
      assert ChangesOf(events) == ChangesOf(events[..n]) + {n};
    } else {
      assert ChangesOf(events) == ChangesOf(events[..n]);
    }
  }

  lemma ObserveCounts(s: Replay, ts: int, c: Config)
    requires c.sampleEvery > 0
    ensures var t := Observe(s, ts, c);
      && t.changes == s.changes + 1 && t.bids == s.bids && t.asks == s.asks
      && t.inSnap == s.inSnap && t.snapSeq == s.snapSeq
      && (|t.rows| > |s.rows| <==> TwoSided(s) && t.changes % c.sampleEvery == 0)
      && (|t.rows| > |s.rows| ==> t.flow == 0.0 && t.rows[..|s.rows|] == s.rows)
      && (|t.rows| <= |s.rows| ==> t.flow == s.flow && t.rows == s.rows)
  {
    hide Features, Depth, IsBest;
  }

  lemma AbsorbCounts(s: Replay, e: Event)
    ensures var t := Absorb(s, e).0;
      t.changes == s.changes && t.rows == s.rows && t.lastMid == s.lastMid && t.flow == s.flow + Signed(e, s.lastMid)
  {
    hide Quote;
  }

  lemma StepIs(s: Replay, e: Event, c: Config)
    requires c.sampleEvery > 0
    ensures Step(s, e, c)
         == if Absorb(s, e).1 then Observe(PruneBoth(Absorb(s, e).0, c.cap), e.ts, c) else Absorb(s, e).0
  {
    hide Absorb, Observe, PruneBoth;
  }

  lemma PruneCounts(s: Replay, cap: bool)
    ensures PruneBoth(s, cap) == s.(bids := PruneBoth(s, cap).bids, asks := PruneBoth(s, cap).asks)
  {
    hide Prune;
  }

  /** What one event does to the counters, the rows and the flow. */
  lemma RunCounts(events: seq<Event>, c: Config)
    requires |events| > 0 && c.sampleEvery > 0
    ensures var n := |events| - 1;
      var s, t := Run(events[..n], c), Run(events, c);
      && t.changes == s.changes + (if IsChange(events, n) then 1 else 0)
      && |s.rows| <= |t.rows| && t.rows[..|s.rows|] == s.rows
      && (|t.rows| > |s.rows| <==> IsChange(events, n) && t.changes % c.sampleEvery == 0 && TwoSided(t))
      && t.flow == if |t.rows| > |s.rows| then 0.0 else s.flow + Signed(events[n], s.lastMid)
  {
    var n := |events| - 1;
    var s, e := Run(events[..n], c), events[n];
    RunNext(events, c);
    ChangedIff(events, c);
    hide *;
    StepIs(s, e, c);
    AbsorbCounts(s, e);
    PruneCounts(Absorb(s, e).0, c.cap);
    ObserveCounts(PruneBoth(Absorb(s, e).0, c.cap), e.ts, c);
  }

  /** The replay counts the changes. */
  lemma {:induction false} ChangesCounted(events: seq<Event>, c: Config)
    requires c.sampleEvery > 0
    ensures Run(events, c).changes == |ChangesOf(events)|
  {
    if |events| == 0 {
      assert ChangesOf(events) == {};
    } else {
      hide *;
      ChangesCounted(events[..|events| - 1], c);
      ChangesNext(events);
      RunCounts(events, c);
    }
  }

  /** One event samples at most one row, and does so exactly on every `sampleEvery`-th change of a two-sided book. */
  lemma SampledIff(events: seq<Event>, c: Config)
    requires |events| > 0 && c.sampleEvery > 0
    ensures var n := |events| - 1;
      var s, t := Run(events[..n], c), Run(events, c);
      && |s.rows| <= |t.rows| && t.rows[..|s.rows|] == s.rows
      && (|t.rows| > |s.rows| <==>
            IsChange(events, n) && |ChangesOf(events)| % c.sampleEvery == 0 && TwoSided(t))
  {
    hide *;
    ChangesCounted(events, c);
    RunCounts(events, c);
  }

  lemma VolumeNext(events: seq<Event>, from: nat, c: Config)
    requires from <= |events| && c.sampleEvery > 0
    ensures |events| == from ==> Volume(events, from, c) == 0.0
    ensures |events| > from ==>
      var n := |events| - 1;
      Volume(events, from, c) == Volume(events[..n], from, c) + Signed(events[n], Run(events[..n], c).lastMid)
  {}

  lemma NothingRun(c: Config)
    requires c.sampleEvery > 0
    ensures var s := Run([], c); s == START && s.flow == 0.0 && s.bids == map[] && s.asks == map[]
  {}

  /** The last row was sampled by the event before `from`, or none was and `from` is 0. */
  ghost predicate SinceRow(events: seq<Event>, from: nat, c: Config)
    requires c.sampleEvery > 0
  {
    && from <= |events|
    && |Run(events, c).rows| == |Run(events[..from], c).rows|
    && (from > 0 ==> |Run(events[..from - 1], c).rows| < |Run(events[..from], c).rows|)
  }

  /** The flow carried is the signed volume traded since the last row. */
  lemma {:induction false} FlowIsVolume(events: seq<Event>, from: nat, c: Config)
    requires c.sampleEvery > 0 && SinceRow(events, from, c)
    ensures Run(events, c).flow == Volume(events, from, c)
    decreases |events|
  {
    var n := |events|;
    assert |Run(events, c).rows| == |Run(events[..from], c).rows|;
    assert from > 0 ==> |Run(events[..from - 1], c).rows| < |Run(events[..from], c).rows|;
    hide Run, Volume, Signed;
    VolumeNext(events, from, c);
    assert events[..n] == events;
    if n == 0 {
      assert events == [];
      NothingRun(c);
    } else {
      RunCounts(events, c);
      if from < n {
        var init := events[..n - 1];
        RowsGrow(init, from, c);
        assert init[..from] == events[..from];
        if from > 0 {
          assert init[..from - 1] == events[..from - 1];
        }
        FlowIsVolume(init, from, c);
      }
    }
  }

  lemma {:induction false} RowsGrow(events: seq<Event>, from: nat, c: Config)
    requires from <= |events| && c.sampleEvery > 0
    ensures |Run(events[..from], c).rows| <= |Run(events, c).rows|
    decreases |events|
  {
    hide *;
    if from == |events| {
      assert events[..from] == events;
    } else {
      RunCounts(events, c);
      RowsGrow(events[..|events| - 1], from, c);
      assert events[..|events| - 1][..from] == events[..from];
    }
  }

  // ------------------------------------------------------------------------------ the resting book

  ghost function SizeAt(s: Replay, bid: bool, p: Price): Option<real> {
    var book := if bid then s.bids else s.asks;
    if p in book then Some(book[p]) else None
  }

  lemma AbsorbQuotes(s: Replay, e: Event, bid: bool, p: Price)
    ensures SizeAt(Absorb(s, e).0, bid, p)
         == if (e.kind == Snapshot || e.kind == Update) && e.bid == bid && e.price == p
            then if e.kind == Update && e.size <= 0.0 then None else Some(e.size)
            else if e.kind == Snapshot && (!s.inSnap || s.snapSeq != Some(e.seqNo)) then None
            else SizeAt(s, bid, p)
  {}

  lemma SameSizes(s: Replay, t: Replay, bid: bool, p: Price)
    requires t.bids == s.bids && t.asks == s.asks
    ensures SizeAt(t, bid, p) == SizeAt(s, bid, p)
  {}

  lemma LastWordNext(events: seq<Event>, bid: bool, p: Price)
    ensures |events| == 0 ==> LastWord(events, bid, p) == None
    ensures |events| > 0 ==>
      var n := |events| - 1;
      var e := events[n];
      LastWord(events, bid, p)
        == if (e.kind == Snapshot || e.kind == Update) && e.bid == bid && e.price == p
           then if e.kind == Update && e.size <= 0.0 then None else Some(e.size)
           else if Begins(events, n) then None
           else LastWord(events[..n], bid, p)
  {}

  /** Without pruning, a level rests in the book exactly at the last size the events quote for it. */
  lemma {:induction false} BookIsTheLastWord(events: seq<Event>, c: Config, bid: bool, p: Price)
    requires c.sampleEvery > 0 && !c.cap
    ensures SizeAt(Run(events, c), bid, p) == LastWord(events, bid, p)
  {
    hide *;
    LastWordNext(events, bid, p);
    if |events| == 0 {
      NothingRun(c);
      NothingRests(bid, p);
    } else {
      var n := |events| - 1;
      var s, e := Run(events[..n], c), events[n];
      BookIsTheLastWord(events[..n], c, bid, p);
      SnapshotMark(events[..n], c);
      RunNext(events, c);
      StepIs(s, e, c);
      AbsorbQuotes(s, e, bid, p);
      BeginsIff(events);
      Unpruned(Absorb(s, e).0);
      ObserveCounts(Absorb(s, e).0, e.ts, c);
      SameSizes(Absorb(s, e).0, Run(events, c), bid, p);
    }
  }

  lemma Unpruned(s: Replay)
    ensures PruneBoth(s, false) == s
  {}

  lemma NothingRests(bid: bool, p: Price)
    ensures SizeAt(START, bid, p) == None
  {}

  lemma BeginsIff(events: seq<Event>)
    requires |events| > 0
    ensures var n := |events| - 1;
      Begins(events, n) == (events[n].kind == Snapshot
        && (n == 0 || events[..n][n - 1].kind != Snapshot || events[..n][n - 1].seqNo != events[n].seqNo))
  {}

  lemma KeepPositive(s: Replay, cap: bool)
    requires PositiveSide(s.bids) && PositiveSide(s.asks)
    ensures PositiveSide(PruneBoth(s, cap).bids) && PositiveSide(PruneBoth(s, cap).asks)
  {
    hide TopN;
  }

  /** From well-formed events every resting price and size is positive. */
  lemma {:induction false} BookIsPositive(events: seq<Event>, c: Config)
    requires WellFormed(events) && c.sampleEvery > 0
    ensures PositiveSide(Run(events, c).bids) && PositiveSide(Run(events, c).asks)
  {
    if |events| == 0 {
      NothingRun(c);
    } else {
      hide *;
      var n := |events| - 1;
      var s, e := Run(events[..n], c), events[n];
      WellFormedParts(events);
      BookIsPositive(events[..n], c);
      AbsorbPositive(s, e);
      KeepPositive(Absorb(s, e).0, c.cap);
      ObserveCounts(PruneBoth(Absorb(s, e).0, c.cap), e.ts, c);
      RunNext(events, c);
      StepIs(s, e, c);
    }
  }

  lemma AbsorbPositive(s: Replay, e: Event)
    requires PositiveSide(s.bids) && PositiveSide(s.asks)
    requires e.price.v > 0.0 && (e.kind == Snapshot ==> e.size > 0.0)
    ensures PositiveSide(Absorb(s, e).0.bids) && PositiveSide(Absorb(s, e).0.asks)
  {}

  // ------------------------------------------------------------------------------------- depth

  /** The levels of a side that are better than p. */
  ghost function Better(bid: bool, prices: set<Price>, p: Price): set<Price> {
    set q | q in prices && if bid then q.v > p.v else q.v < p.v
  }

  lemma SizeSnoc(book: Side, prices: seq<Price>, p: Price)
    requires p in book && forall q :: q in prices ==> q in book
    ensures SizeOf(book, prices + [p]) == SizeOf(book, prices) + book[p]
    decreases |prices|
  {
    if |prices| > 0 {
      assert (prices + [p])[1..] == prices[1..] + [p];
      SizeSnoc(book, prices[1..], p);
    }
  }

  lemma BetterRest(bid: bool, prices: set<Price>, p: Price, n: nat)
    requires p in prices && |Better(bid, prices, p)| == n > 0
    ensures var best := Best(bid, prices); p != best && |Better(bid, prices - {best}, p)| == n - 1
  {
    var best := Best(bid, prices);
    var q :| q in Better(bid, prices, p);
    assert Rank(bid, q) <= Rank(bid, best);
    assert best in Better(bid, prices, p);
    assert Better(bid, prices - {best}, p) == Better(bid, prices, p) - {best};
  }

  lemma BestHasNoBetter(bid: bool, prices: set<Price>, p: Price)
    requires p in prices && Better(bid, prices, p) == {}
    ensures p == Best(bid, prices)
  {
    var best := Best(bid, prices);
    assert best !in Better(bid, prices, p);
    assert Rank(bid, p) <= Rank(bid, best);
  }

  lemma {:induction false} TopGrows(bid: bool, prices: set<Price>, p: Price, n: nat)
    requires p in prices && |Better(bid, prices, p)| == n
    ensures TopN(bid, prices, n + 1) == TopN(bid, prices, n) + [p]
    decreases n
  {
    hide TopN, Best, Better, IsBest;
    var best := Best(bid, prices);
    TopNext(bid, prices, n + 1);
    if n == 0 {
      BestHasNoBetter(bid, prices, p);
      TopNone(bid, prices);
      TopNone(bid, prices - {best});
    } else {
      BetterRest(bid, prices, p, n);
      TopGrows(bid, prices - {best}, p, n - 1);
      TopNext(bid, prices, n);
    }
  }

  /** No levels have no depth, and the level with n better ones beside it is what an (n + 1)-st adds to n. */
  lemma DepthGrows(bid: bool, book: Side, p: Price, n: nat)
    requires p in book && |Better(bid, book.Keys, p)| == n
    ensures Depth(bid, book, 0) == 0.0
    ensures Depth(bid, book, n + 1) == Depth(bid, book, n) + book[p]
  {
    TopNone(bid, book.Keys);
    TopGrows(bid, book.Keys, p, n);
    SizeSnoc(book, TopN(bid, book.Keys, n), p);
  }

  // -------------------------------------------------------------------------------------- one row

  ghost predicate Increasing(ln: real -> real) {
    ln(1.0) == 0.0 && forall x, y :: 0.0 < x < y ==> ln(x) < ln(y)
  }

  /** A share of a whole with the sign of its numerator. */
  ghost predicate IsShare(r: real, x: real, y: real) {
    && -1.0 <= r <= 1.0 && r * (x + y) == x - y
    && (r > 0.0 <==> x > y) && (r < 0.0 <==> x < y)
  }

  /** Mid and spread give back the touch, and the micro premium leans half the spread towards the heavier side. */
  ghost predicate ShowsTouch(r: Row, bid: real, ask: real, bidSize: real, askSize: real) {
    && bid == r.mid - r.mid * r.spreadBps / 20000.0 && ask == r.mid + r.mid * r.spreadBps / 20000.0
    && IsShare(r.imbalance, bidSize, askSize)
    && r.microPremBps == r.spreadBps * r.imbalance / 2.0
  }

  ghost predicate ShowsDepth(r: Row, depth: nat, bidDepth: real, askDepth: real) {
    if depth == 0 then r.depthImb == 0.0 else IsShare(r.depthImb, bidDepth, askDepth)
  }

  /** The flow is the volume traded since the last row in units of the touch's size, and keeps its sign. */
  ghost predicate ShowsFlow(r: Row, touch: real, volume: real) {
    r.tradeFlow * touch == volume && (r.tradeFlow > 0.0 <==> volume > 0.0) && (r.tradeFlow < 0.0 <==> volume < 0.0)
  }

  /** The return is the log of the move of mid and has its sign. */
  ghost predicate ShowsReturn(r: Row, lastMid: Option<real>, ln: real -> real) {
    match lastMid
    case None => r.ret == 0.0
    case Some(before) => before > 0.0 ==>
      (r.ret > 0.0 <==> r.mid > before) && (r.ret < 0.0 <==> r.mid < before) && r.ret == ln(r.mid / before)
  }

  /** What a row promises of the book it was sampled from. */
  ghost predicate Describes(r: Row, bids: Side, asks: Side, volume: real, lastMid: Option<real>, c: Config) {
    && bids.Keys != {} && asks.Keys != {}
    && var bb, ba := Best(true, bids.Keys), Best(false, asks.Keys);
    && (forall p :: p in bids ==> p.v <= bb.v) && (forall p :: p in asks ==> ba.v <= p.v)
    && ShowsTouch(r, bb.v, ba.v, bids[bb], asks[ba])
    && ShowsDepth(r, c.depth, Depth(true, bids, c.depth), Depth(false, asks, c.depth))
    && ShowsFlow(r, bids[bb] + asks[ba], volume)
    && ShowsReturn(r, lastMid, c.ln)
  }

  lemma ShareOf(x: real, y: real)
    requires x >= 0.0 && y >= 0.0 && x + y > 0.0
    ensures IsShare((x - y) / (x + y), x, y)
  {
    var r, t := (x - y) / (x + y), x + y;
    assert r * t == x - y;
    QuotientSign(x - y, t);
    QuotientMono(x - y, t, t);
    QuotientMono(-t, x - y, t);
    QuotientOfItself(t);
    NegatedQuotient(t, t);
  }

  lemma NegatedQuotient(x: real, d: real)
    requires d > 0.0
    ensures -x / d == -(x / d)
  {}

  lemma QuotientMono(x: real, y: real, d: real)
    requires d > 0.0 && x <= y
    ensures x / d <= y / d
  {}

  lemma QuotientSign(x: real, d: real)
    requires d > 0.0
    ensures x / d * d == x && (x / d > 0.0 <==> x > 0.0) && (x / d < 0.0 <==> x < 0.0)
  {}

  /** Half the spread, weighted by the imbalance, is what the size-weighted mid adds to mid. */
  lemma MicroLeans(bb: real, ba: real, x: real, y: real)
    requires x + y > 0.0
    ensures (bb * y + ba * x) / (x + y) - (bb + ba) / 2.0 == (ba - bb) * ((x - y) / (x + y)) / 2.0
  {
    MicroGap(bb, ba, x, y);
    DivSub(bb * y + ba * x, (bb + ba) / 2.0, x + y);
    DivScale(ba - bb, x - y, x + y);
  }

  lemma MicroGap(bb: real, ba: real, x: real, y: real)
    ensures bb * y + ba * x - (bb + ba) / 2.0 * (x + y) == (ba - bb) * (x - y) / 2.0
  {}

  lemma DivSub(x: real, m: real, t: real)
    requires t > 0.0
    ensures x / t - m == (x - m * t) / t
  {}

  lemma DivScale(k: real, x: real, t: real)
    requires t > 0.0
    ensures k * x / 2.0 / t == k * (x / t) / 2.0
  {}

  lemma PremiumOfSpread(spread: real, imbalance: real, mid: real)
    requires mid > 0.0
    ensures spread * imbalance / 2.0 / mid * 10000.0 == spread / mid * 10000.0 * imbalance / 2.0
  {
    assert spread * imbalance / 2.0 / mid == spread / mid * imbalance / 2.0;
  }

  lemma TouchOfMid(bb: real, ba: real)
    requires bb + ba > 0.0
    ensures var mid := (bb + ba) / 2.0;
      var spread := (ba - bb) / mid * 10000.0;
      mid * spread / 20000.0 == (ba - bb) / 2.0
  {
    var mid := (bb + ba) / 2.0;
    QuotientSign(ba - bb, mid);
    var q := (ba - bb) / mid;
    assert mid * (q * 10000.0) == q * mid * 10000.0;
  }

  lemma QuotientAboveOne(x: real, d: real)
    requires x > d > 0.0
    ensures x / d > 1.0
  {}

  lemma QuotientBelowOne(x: real, d: real)
    requires 0.0 < x < d
    ensures 0.0 < x / d < 1.0
  {
    if x / d >= 1.0 {
      MulMono(d, 1.0, x / d);
    }
  }

  lemma QuotientOfItself(d: real)
    requires d > 0.0
    ensures d / d == 1.0
  {}

  lemma ReturnSign(ln: real -> real, mid: real, before: real)
    requires Increasing(ln) && mid > 0.0 && before > 0.0
    ensures (ln(mid / before) > 0.0 <==> mid > before) && (ln(mid / before) < 0.0 <==> mid < before)
  {
    var q := mid / before;
    QuotientSign(mid, before);
    if mid > before {
      QuotientAboveOne(mid, before);
    } else if mid < before {
      QuotientBelowOne(mid, before);
    }
    if mid == before {
      QuotientOfItself(before);
    } else if q > 1.0 {
      assert ln(1.0) < ln(q);
    } else if q < 1.0 {
      assert ln(q) < ln(1.0);
    }
  }

  lemma {:induction false} SizePositive(book: Side, prices: seq<Price>)
    requires PositiveSide(book) && forall p :: p in prices ==> p in book
    ensures SizeOf(book, prices) >= 0.0 && (|prices| > 0 ==> SizeOf(book, prices) > 0.0)
  {
    if |prices| > 0 {
      SizePositive(book, prices[1..]);
      assert prices[0] in prices;
    }
  }

  lemma DepthPositive(bid: bool, book: Side, n: nat)
    requires PositiveSide(book) && book.Keys != {}
    ensures if n == 0 then Depth(bid, book, n) == 0.0 else Depth(bid, book, n) > 0.0
  {
    SizePositive(book, TopN(bid, book.Keys, n));
  }

  lemma TouchShown(r: Row, bb: real, ba: real, x: real, y: real)
    requires bb > 0.0 && ba > 0.0 && x > 0.0 && y > 0.0
    requires r.mid == (bb + ba) / 2.0 && r.imbalance == (x - y) / (x + y) && r.spreadBps == (ba - bb) / r.mid * 10000.0
    requires r.microPremBps == ((bb * y + ba * x) / (x + y) - r.mid) / r.mid * 10000.0
    ensures ShowsTouch(r, bb, ba, x, y)
  {
    hide IsShare;
    ShareOf(x, y);
    TouchOfMid(bb, ba);
    MicroLeans(bb, ba, x, y);
    PremiumOfSpread(ba - bb, r.imbalance, r.mid);
  }

  lemma FeaturesShow(ts: int, bb: real, ba: real, x: real, y: real, bd: real, ad: real, flow: real,
                     lastMid: Option<real>, c: Config)
    requires bb > 0.0 && ba > 0.0 && x > 0.0 && y > 0.0 && Increasing(c.ln)
    requires if c.depth == 0 then bd == ad == 0.0 else bd > 0.0 && ad > 0.0
    ensures var r := Features(ts, bb, ba, x, y, bd, ad, flow, lastMid, c.ln);
      ShowsTouch(r, bb, ba, x, y) && ShowsDepth(r, c.depth, bd, ad) && ShowsFlow(r, x + y, flow) && ShowsReturn(r, lastMid, c.ln)
  {
    hide IsShare, Increasing, ShowsTouch;
    var r := Features(ts, bb, ba, x, y, bd, ad, flow, lastMid, c.ln);
    TouchShown(r, bb, ba, x, y);
    if c.depth > 0 {
      ShareOf(bd, ad);
    }
    QuotientSign(flow, x + y);
    if lastMid.Some? && lastMid.value > 0.0 {
      ReturnSign(c.ln, r.mid, lastMid.value);
    }
  }

  lemma FeaturesDescribe(ts: int, bids: Side, asks: Side, flow: real, lastMid: Option<real>, c: Config)
    requires PositiveSide(bids) && PositiveSide(asks) && bids.Keys != {} && asks.Keys != {} && Increasing(c.ln)
    ensures var bb, ba := Best(true, bids.Keys), Best(false, asks.Keys);
      Describes(Features(ts, bb.v, ba.v, bids[bb], asks[ba], Depth(true, bids, c.depth), Depth(false, asks, c.depth),
                         flow, lastMid, c.ln), bids, asks, flow, lastMid, c)
  {
    var bb, ba := Best(true, bids.Keys), Best(false, asks.Keys);
    assert bb in bids && ba in asks;
    assert forall p :: p in bids ==> Rank(true, p) <= Rank(true, bb);
    assert forall p :: p in asks ==> Rank(false, p) <= Rank(false, ba);
    assert bids[bb] > 0.0 && asks[ba] > 0.0 && bb.v > 0.0 && ba.v > 0.0;
    DepthPositive(true, bids, c.depth);
    DepthPositive(false, asks, c.depth);
    hide Depth, Best, IsBest, ShowsTouch, ShowsDepth, ShowsFlow, ShowsReturn, PositiveSide, Increasing, Features;
    FeaturesShow(ts, bb.v, ba.v, bids[bb], asks[ba], Depth(true, bids, c.depth), Depth(false, asks, c.depth), flow,
                 lastMid, c);
  }

  /** Mid is carried from the last change that left the book two-sided. */
  lemma MidTracksTheTouch(events: seq<Event>, c: Config)
    requires |events| > 0 && c.sampleEvery > 0
    ensures var n := |events| - 1;
      TracksTouch(Run(events[..n], c), Run(events, c), IsChange(events, n))
  {
    hide *;
    var n := |events| - 1;
    var s, e := Run(events[..n], c), events[n];
    ChangedIff(events, c);
    RunNext(events, c);
    StepIs(s, e, c);
    AbsorbCounts(s, e);
    PruneCounts(Absorb(s, e).0, c.cap);
    AbsorbTracks(s, Absorb(s, e).0);
    ObserveTracks(s, PruneBoth(Absorb(s, e).0, c.cap), e.ts, c);
  }

  ghost predicate TracksTouch(s: Replay, t: Replay, changed: bool) {
    if changed && TwoSided(t)
    then t.lastMid.Some? && t.lastMid.value - Best(true, t.bids.Keys).v == Best(false, t.asks.Keys).v - t.lastMid.value
    else t.lastMid == s.lastMid
  }

  lemma AbsorbTracks(s: Replay, t: Replay)
    requires t.lastMid == s.lastMid
    ensures TracksTouch(s, t, false)
  {}

  lemma ObserveTracks(s: Replay, a: Replay, ts: int, c: Config)
    requires c.sampleEvery > 0 && a.lastMid == s.lastMid
    ensures TracksTouch(s, Observe(a, ts, c), true)
  {
    hide Features, Depth, IsBest, Best;
  }

  lemma ObserveDescribes(s: Replay, ts: int, c: Config)
    requires c.sampleEvery > 0 && PositiveSide(s.bids) && PositiveSide(s.asks) && Increasing(c.ln)
    requires |Observe(s, ts, c).rows| > |s.rows|
    ensures var t := Observe(s, ts, c);
      && t.bids == s.bids && t.asks == s.asks && TwoSided(s) && |t.rows| == |s.rows| + 1
      && t.rows[|s.rows|].ts == ts && Describes(t.rows[|s.rows|], s.bids, s.asks, s.flow, s.lastMid, c)
  {
    ObserveCounts(s, ts, c);
    FeaturesDescribe(ts, s.bids, s.asks, s.flow, s.lastMid, c);
    hide Depth, IsBest, Best, Describes;
  }

  /** The event ending in t added one row to those of s, and the row describes the book at that event. */
  ghost predicate AddsRow(s: Replay, t: Replay, ts: int, volume: real, c: Config) {
    && |t.rows| == |s.rows| + 1 && t.rows[..|s.rows|] == s.rows && t.rows[|s.rows|].ts == ts
    && Describes(t.rows[|s.rows|], t.bids, t.asks, volume, s.lastMid, c)
  }

  /** Every row of every replay of well-formed events describes the book at its event and the flow since the row before. */
  lemma RowsDescribeTheBook(init: seq<Event>, e: Event, from: nat, c: Config)
    requires c.sampleEvery > 0 && WellFormed(init + [e]) && Increasing(c.ln)
    requires SinceRow(init, from, c) && |Run(init + [e], c).rows| > |Run(init, c).rows|
    ensures AddsRow(Run(init, c), Run(init + [e], c), e.ts, Volume(init + [e], from, c), c)
  {
    hide Run, Volume, WellFormed, Increasing, Describes, PositiveSide, Observe, PruneBoth, Absorb, Step, Signed, IsChange;
    var events, s := init + [e], Run(init, c);
    assert events[..|init|] == init;
    FlowIsVolume(init, from, c);
    VolumeNext(events, from, c);
    RunCounts(events, c);
    ChangedIff(events, c);
    RunNext(events, c);
    StepIs(s, e, c);
    WellFormedParts(events);
    BookIsPositive(init, c);
    AbsorbPositive(s, e);
    AbsorbCounts(s, e);
    var a := Absorb(s, e).0;
    KeepPositive(a, c.cap);
    PruneCounts(a, c.cap);
    ObserveDescribes(PruneBoth(a, c.cap), e.ts, c);
    ObserveCounts(PruneBoth(a, c.cap), e.ts, c);
  }

  lemma WellFormedParts(events: seq<Event>)
    requires |events| > 0 && WellFormed(events)
    ensures var n := |events| - 1;
      WellFormed(events[..n]) && events[n].price.v > 0.0 && (events[n].kind == Snapshot ==> events[n].size > 0.0)
  {}
}
