/**
 Order-book replay (research/mds/lob.py, `build_panel`): an incremental limit order book that prunes itself to
 the levels near the touch, and the feature rows sampled from it.
 */
module OrderBook {
  import opened Reals

  /** A side is pruned to its KEEP best levels when it grows beyond CAP. */
  const CAP: nat := 256
  const KEEP: nat := 64

  datatype Price = Price(v: real)

  datatype Kind = Snapshot | Update | Trade | Other

  datatype Event = Event(seqNo: int, ts: int, kind: Kind, bid: bool, price: Price, size: real)

  type Side = map<Price, real>

  datatype Row = Row(ts: int, mid: real, imbalance: real, microPremBps: real, spreadBps: real,
                     depthImb: real, tradeFlow: real, ret: real)

  /** The call's settings; `cap` is off for the reference book that is never pruned. */
  datatype Config = Config(sampleEvery: nat, depth: nat, ln: real -> real, cap: bool)

  datatype Replay = Replay(bids: Side, asks: Side, snapSeq: Option<int>, inSnap: bool,
                           flow: real, lastMid: Option<real>, changes: nat, rows: seq<Row>)

  const START := Replay(map[], map[], None, false, 0.0, None, 0, [])

  // --------------------------------------------------------------------------------- best levels

  /** Larger for better prices: high for bids, low for asks. */
  function Rank(bid: bool, price: Price): real {
    if bid then price.v else -price.v
  }

  ghost predicate IsBest(bid: bool, prices: set<Price>, p: Price) {
    p in prices && forall q :: q in prices ==> Rank(bid, q) <= Rank(bid, p)
  }

  lemma {:induction false} FindBest(bid: bool, prices: set<Price>) returns (best: Price)
    requires prices != {}
    ensures IsBest(bid, prices, best)
    decreases prices
  {
    best :| best in prices;
    var rest := prices - {best};
    assert forall r :: r in prices ==> r == best || r in rest;
    if rest != {} {
      var q := FindBest(bid, rest);
      if Rank(bid, q) > Rank(bid, best) {
        best := q;
      }
    }
  }

  lemma BestExists(bid: bool, prices: set<Price>)
    requires prices != {}
    ensures exists p :: p in prices && forall q :: q in prices ==> Rank(bid, q) <= Rank(bid, p)
  {
    var p := FindBest(bid, prices);
  }

  function Best(bid: bool, prices: set<Price>): (p: Price)
    requires prices != {}
    ensures IsBest(bid, prices, p)
  {
    BestExists(bid, prices);
    var p :| p in prices && forall q :: q in prices ==> Rank(bid, q) <= Rank(bid, p);
    p
  }

  /** The n best prices, best first. */
  function TopN(bid: bool, prices: set<Price>, n: nat): (top: seq<Price>)
    ensures forall p :: p in top ==> p in prices
    ensures |top| == if |prices| <= n then |prices| else n
    decreases n
  {
    if n == 0 || prices == {} then []
    else
      var p := Best(bid, prices);
      [p] + TopN(bid, prices - {p}, n - 1)
  }

  lemma TopNone(bid: bool, prices: set<Price>)
    ensures TopN(bid, prices, 0) == []
  {}

  lemma TopNext(bid: bool, prices: set<Price>, n: nat)
    requires n > 0 && prices != {}
    ensures TopN(bid, prices, n) == [Best(bid, prices)] + TopN(bid, prices - {Best(bid, prices)}, n - 1)
  {}

  function SizeOf(book: Side, prices: seq<Price>): real
    requires forall p :: p in prices ==> p in book
  {
    if |prices| == 0 then 0.0 else book[prices[0]] + SizeOf(book, prices[1..])
  }

  function Depth(bid: bool, book: Side, n: nat): real {
    SizeOf(book, TopN(bid, book.Keys, n))
  }

  function Keep(book: Side, kept: seq<Price>): Side {
    map p | p in book.Keys && p in kept :: book[p]
  }

  function Prune(bid: bool, book: Side): Side {
    if |book| <= CAP then book else Keep(book, TopN(bid, book.Keys, KEEP))
  }

  // ----------------------------------------------------------------------------------- one event

  function Quote(book: Side, price: Price, size: real): Side {
    if size <= 0.0 then book - {price} else book[price := size]
  }

  function OnSnapshot(s: Replay, e: Event): Replay {
    var begins := !s.inSnap || s.snapSeq != Some(e.seqNo);
    var s' := if begins then s.(bids := map[], asks := map[], snapSeq := Some(e.seqNo), inSnap := true) else s;
    if e.bid then s'.(bids := s'.bids[e.price := e.size]) else s'.(asks := s'.asks[e.price := e.size])
  }

  function OnTrade(s: Replay, e: Event): Replay {
    if s.lastMid.None? then s
    else s.(flow := s.flow + (if e.price.v >= s.lastMid.value then e.size else -e.size))
  }

  function OnUpdate(s: Replay, e: Event): Replay {
    if e.bid then s.(bids := Quote(s.bids, e.price, e.size)) else s.(asks := Quote(s.asks, e.price, e.size))
  }

  function PruneBoth(s: Replay, cap: bool): Replay {
    if cap then s.(bids := Prune(true, s.bids), asks := Prune(false, s.asks)) else s
  }

  function Ratio(x: real, y: real, otherwise: real): real {
    if y > 0.0 then x / y else otherwise
  }

  /** The features of one sample, from the touch, the depth and the flow since the last sample. */
  function Features(ts: int, bb: real, ba: real, bbSize: real, baSize: real, bidDepth: real, askDepth: real,
                    flow: real, lastMid: Option<real>, ln: real -> real): Row
  {
    var mid := (bb + ba) / 2.0;
    var tot := bbSize + baSize;
    var micro := Ratio(bb * baSize + ba * bbSize, tot, mid);
    Row(ts, mid, Ratio(bbSize - baSize, tot, 0.0), Ratio(micro - mid, mid, 0.0) * 10000.0,
        Ratio(ba - bb, mid, 0.0) * 10000.0, Ratio(bidDepth - askDepth, bidDepth + askDepth, 0.0),
        flow / (if tot > 0.0 then tot else 1.0),
        if lastMid.Some? && lastMid.value > 0.0 then ln(mid / lastMid.value) else 0.0)
  }

  /** Counts a book change and, on every `sampleEvery`-th one with a two-sided book, samples a row. */
  function Observe(s: Replay, ts: int, c: Config): Replay
    requires c.sampleEvery > 0
  {
    var s' := s.(changes := s.changes + 1);
    if s.bids.Keys == {} || s.asks.Keys == {} then s'
    else
      var bb, ba := Best(true, s.bids.Keys), Best(false, s.asks.Keys);
      var mid := (bb.v + ba.v) / 2.0;
      if s'.changes % c.sampleEvery != 0 then s'.(lastMid := Some(mid))
      else
        var row := Features(ts, bb.v, ba.v, s.bids[bb], s.asks[ba], Depth(true, s.bids, c.depth),
                            Depth(false, s.asks, c.depth), s.flow, s.lastMid, c.ln);
        s'.(rows := s.rows + [row], flow := 0.0, lastMid := Some(mid))
  }

  /** What an event does to the book before pruning; None if it leaves the resting book unchanged. */
  function Absorb(s: Replay, e: Event): (Replay, bool) {
    var s' := s.(inSnap := false);
    match e.kind
    case Snapshot => (OnSnapshot(s, e), false)
    case Trade => (OnTrade(s', e), s.inSnap)
    case Update => (OnUpdate(s', e), true)
    case Other => (s', true)
  }

  function Step(s: Replay, e: Event, c: Config): Replay
    requires c.sampleEvery > 0
  {
    var (s', changed) := Absorb(s, e);
    if changed then Observe(PruneBoth(s', c.cap), e.ts, c) else s'
  }

  function Run(events: seq<Event>, c: Config): Replay
    requires c.sampleEvery > 0
  {
    if |events| == 0 then START else Step(Run(events[..|events| - 1], c), events[|events| - 1], c)
  }

  class Replayer {
    const config: Config
    var bids: Side
    var asks: Side
    var snapSeq: Option<int>
    var inSnap: bool
    var flow: real
    var lastMid: Option<real>
    var changes: nat
    var rows: seq<Row>

    ghost function View(): Replay
      reads this
    {
      Replay(bids, asks, snapSeq, inSnap, flow, lastMid, changes, rows)
    }

    constructor (config: Config)
      ensures View() == START && this.config == config
    {
      this.config := config;
      bids, asks, snapSeq, inSnap, flow, lastMid, changes, rows := map[], map[], None, false, 0.0, None, 0, [];
    }

    method OnEvent(e: Event)
      requires config.sampleEvery > 0
      modifies this
      ensures View() == Step(old(View()), e, config)
    {
      hide Features, Prune, Depth, Quote, Observe;
      if e.kind == Snapshot {
        if !inSnap || snapSeq != Some(e.seqNo) {
          bids, asks, snapSeq, inSnap := map[], map[], Some(e.seqNo), true;
        }
        if e.bid {
          bids := bids[e.price := e.size];
        } else {
          asks := asks[e.price := e.size];
        }
        return;
      }
      var snapshotDone := inSnap;
      inSnap := false;
      if e.kind == Trade {
        if lastMid.Some? {
          flow := flow + (if e.price.v >= lastMid.value then e.size else -e.size);
        }
        if !snapshotDone {
          return;
        }
      } else if e.kind == Update {
        if e.bid {
          bids := Quote(bids, e.price, e.size);
        } else {
          asks := Quote(asks, e.price, e.size);
        }
      }
      if config.cap {
        bids, asks := Prune(true, bids), Prune(false, asks);
      }
      Sample(e.ts);
    }

    method Sample(ts: int)
      requires config.sampleEvery > 0
      modifies this
      ensures View() == Observe(old(View()), ts, config)
    {
      hide Features, Depth, IsBest;
      changes := changes + 1;
      if bids.Keys == {} || asks.Keys == {} {
        return;
      }
      var bb, ba := Best(true, bids.Keys), Best(false, asks.Keys);
      var mid := (bb.v + ba.v) / 2.0;
      if changes % config.sampleEvery != 0 {
        lastMid := Some(mid);
        return;
      }
      var row := Features(ts, bb.v, ba.v, bids[bb], asks[ba], Depth(true, bids, config.depth),
                          Depth(false, asks, config.depth), flow, lastMid, config.ln);
      rows := rows + [row];
      flow := 0.0;
      lastMid := Some(mid);
    }
  }

  /** Replays a session and returns its feature rows. */
  method BuildRows(events: seq<Event>, config: Config) returns (rows: seq<Row>)
    requires config.sampleEvery > 0
    ensures rows == Run(events, config).rows
  {
    var replay := new Replayer(config);
    for i := 0 to |events|
      invariant replay.View() == Run(events[..i], config) && replay.config == config
    {
      assert events[..i + 1][..i] == events[..i];
      replay.OnEvent(events[i]);
    }
    assert events[..|events|] == events;
    rows := replay.rows;
  }
}
