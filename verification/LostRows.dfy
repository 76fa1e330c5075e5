/**
 A session in which pruning changes the features (research/mds/lob.py:110-147): the pruned replay loses a row that
 the full one samples.
 */
module LostRows {
  import opened Reals
  import opened OrderBook
  import opened OrderBookPruning

  function Bid(price: Price, size: real): Event {
    Event(0, 0, Update, true, price, size)
  }

  /** The levels 1 to k, all of size one. */
  function Ladder(k: nat): Side {
    if k == 0 then map[] else Ladder(k - 1)[Price(k as real) := 1.0]
  }

  lemma {:induction false} LadderSize(k: nat)
    ensures |Ladder(k)| == k == |Ladder(k).Keys| && forall p :: p in Ladder(k) ==> p.v <= k as real
  {
    if k > 0 {
      LadderSize(k - 1);
      assert Price(k as real) !in Ladder(k - 1);
      assert Ladder(k).Keys == Ladder(k - 1).Keys + {Price(k as real)};
    }
  }

  const ASK := Event(0, 0, Update, false, Price(1000.0), 1.0)

  /** An ask, and then bids at 1, 2, and so on. */
  function Fill(k: nat): seq<Event> {
    if k == 0 then [ASK] else Fill(k - 1) + [Bid(Price(k as real), 1.0)]
  }

  /** One withdrawal after the other. */
  function Withdrawals(prices: seq<Price>): seq<Event> {
    seq(|prices|, i requires 0 <= i < |prices| => Bid(prices[i], 0.0))
  }

  /** Every book change is sampled. */
  function Every(depth: nat, ln: real -> real, cap: bool): Config {
    Config(1, depth, ln, cap)
  }

  /** A lone ask on the other side, and no snapshot under way. */
  predicate LoneAsk(s: Replay) {
    s.asks == map[Price(1000.0) := 1.0] && !s.inSnap
  }

  lemma LoneAskKept(s: Replay)
    requires LoneAsk(s)
    ensures Prune(false, s.asks) == s.asks && s.asks.Keys != {}
  {
    assert s.asks.Keys == {Price(1000.0)};
    assert |s.asks| == |s.asks.Keys| == 1;
  }

  /** A row is sampled when both sides are there. */
  lemma ObserveRows(s: Replay, c: Config)
    requires c.sampleEvery == 1
    ensures var s' := Observe(s, 0, c);
      && s'.bids == s.bids && s'.asks == s.asks && s'.inSnap == s.inSnap
      && |s'.rows| == |s.rows| + (if s.bids.Keys == {} || s.asks.Keys == {} then 0 else 1)
  {
    hide Features, Depth, Best;
  }

  /** A bid update: the bids change as quoted, and a row is sampled if any are left. */
  lemma BidUpdate(s: Replay, price: Price, size: real, c: Config)
    requires c.sampleEvery == 1 && LoneAsk(s)
    ensures var s' := Step(s, Bid(price, size), c); var bids := Quote(s.bids, price, size);
      && LoneAsk(s') && s'.bids == (if c.cap then Prune(true, bids) else bids)
      && |s'.rows| == |s.rows| + (if s'.bids.Keys == {} then 0 else 1)
  {
    hide Observe, Prune, Quote;
    LoneAskKept(s);
    var (s', changed) := Absorb(s, Bid(price, size));
    assert changed && s' == s.(bids := Quote(s.bids, price, size));
    ObserveRows(PruneBoth(s', c.cap), c);
  }

  lemma RunNext(events: seq<Event>, e: Event, c: Config)
    requires c.sampleEvery > 0
    ensures Run(events + [e], c) == Step(Run(events, c), e, c)
  {
    hide Step;
    assert (events + [e])[..|events|] == events;
  }

  lemma FirstAsk(c: Config)
    requires c.sampleEvery == 1
    ensures LoneAsk(Run([ASK], c)) && Run([ASK], c).bids == map[] && Run([ASK], c).rows == []
  {
    RunNext([], ASK, c);
    assert [] + [ASK] == [ASK];
    assert Run([], c) == START;
    hide Observe, Prune, Run;
    var s := START.(asks := map[Price(1000.0) := 1.0]);
    LoneAskKept(s);
    var (s', changed) := Absorb(START, ASK);
    assert changed && s' == s;
    assert Prune(true, map[]) == map[] by {
      EmptyKept();
    }
    ObserveRows(PruneBoth(s, c.cap), c);
  }

  lemma EmptyKept()
    ensures Prune(true, map[]) == map[]
  {}

  /** Up to 256 bids nothing is pruned, and every one after the ask samples a row. */
  lemma {:induction false} Filled(k: nat, c: Config)
    requires c.sampleEvery == 1 && k <= CAP
    ensures var s := Run(Fill(k), c); LoneAsk(s) && s.bids == Ladder(k) && |s.rows| == k
  {
    hide Run, Step, LoneAsk;
    if k == 0 {
      FirstAsk(c);
    } else {
      Filled(k - 1, c);
      NextBid(k, c);
      LadderSize(k);
    }
  }

  /** The k-th bid joins the ladder. */
  lemma NextBid(k: nat, c: Config)
    requires c.sampleEvery == 1 && k > 0 && LoneAsk(Run(Fill(k - 1), c)) && Run(Fill(k - 1), c).bids == Ladder(k - 1)
    ensures var s, s' := Run(Fill(k - 1), c), Run(Fill(k), c);
      && LoneAsk(s') && s'.bids == (if c.cap then Prune(true, Ladder(k)) else Ladder(k))
      && |s'.rows| == |s.rows| + (if s'.bids.Keys == {} then 0 else 1)
  {
    hide Run, Step, LoneAsk, Prune;
    RunNext(Fill(k - 1), Bid(Price(k as real), 1.0), c);
    BidUpdate(Run(Fill(k - 1), c), Price(k as real), 1.0, c);
  }

  /** The 257th bid prunes the capped replay and not the other. */
  lemma Overfilled(c: Config)
    requires c.sampleEvery == 1
    ensures var s := Run(Fill(CAP + 1), c);
      && LoneAsk(s) && s.bids == (if c.cap then Prune(true, Ladder(CAP + 1)) else Ladder(CAP + 1))
      && |s.rows| <= CAP + 1 && (!c.cap ==> |s.rows| == CAP + 1)
  {
    hide Run, LoneAsk, Prune, Ladder, Fill;
    Filled(CAP, c);
    NextBid(CAP + 1, c);
    LadderSize(CAP + 1);
  }

  lemma QuoteShrinks(book: Side, p: Price)
    ensures Quote(book, p, 0.0).Keys <= book.Keys && |Quote(book, p, 0.0)| <= |book|
  {
    var less := Quote(book, p, 0.0);
    assert book.Keys == less.Keys + (book.Keys - less.Keys);
    assert |book| == |book.Keys| && |less| == |less.Keys|;
  }

  /** What withdrawing prices from a replay does: the bids shrink, one row each while any are left. */
  ghost predicate After(s: Replay, s': Replay, prices: seq<Price>, c: Config) {
    && LoneAsk(s') && s'.bids == Withdraw(s.bids, prices) && (c.cap ==> |s'.bids| <= CAP)
    && |s'.rows| <= |s.rows| + |prices|
    && (s'.bids.Keys != {} ==> |s'.rows| == |s.rows| + |prices|)
    && (s'.bids.Keys == {} && |prices| > 0 ==> |s'.rows| < |s.rows| + |prices|)
  }

  lemma WithdrawOne(s: Replay, s': Replay, prices: seq<Price>, p: Price, c: Config)
    requires c.sampleEvery == 1 && After(s, s', prices, c)
    ensures After(s, Step(s', Bid(p, 0.0), c), prices + [p], c)
  {
    hide Step, LoneAsk;
    BidUpdate(s', p, 0.0, c);
    QuoteShrinks(s'.bids, p);
    assert (prices + [p])[..|prices|] == prices;
    hide Quote;
  }

  lemma {:induction false} Withdrawn(events: seq<Event>, prices: seq<Price>, c: Config)
    requires c.sampleEvery == 1 && LoneAsk(Run(events, c)) && (c.cap ==> |Run(events, c).bids| <= CAP)
    ensures After(Run(events, c), Run(events + Withdrawals(prices), c), prices, c)
  {
    hide Run, Step, LoneAsk;
    if |prices| == 0 {
      assert events + Withdrawals(prices) == events;
    } else {
      var init, p := prices[..|prices| - 1], prices[|prices| - 1];
      assert prices == init + [p];
      hide After;
      Withdrawn(events, init, c);
      assert events + Withdrawals(prices) == (events + Withdrawals(init)) + [Bid(p, 0.0)];
      RunNext(events + Withdrawals(init), Bid(p, 0.0), c);
      WithdrawOne(Run(events, c), Run(events + Withdrawals(init), c), init, p, c);
    }
  }

  lemma KeptIsSmall(book: Side, kept: seq<Price>)
    ensures |Keep(book, kept)| <= |kept|
  {
    SetOfSeq(kept);
    var left := Keep(book, kept);
    SubsetSize(left.Keys, set p | p in kept);
    assert |left| == |left.Keys|;
  }

  lemma PruneIsSmall(book: Side)
    ensures |Prune(true, book)| <= CAP
  {
    hide Keep, TopN;
    KeptIsSmall(book, TopN(true, book.Keys, KEEP));
  }

  /**
   A session in which pruning changes the rows, at any depth: an ask, 257 bids, and the withdrawal of the 64 best.
   The last change leaves the pruned replay without bids and so without a row.
   */
  lemma PruningLosesARow(depth: nat, ln: real -> real)
    ensures var events := Fill(CAP + 1) + Withdrawals(TopN(true, Ladder(CAP + 1).Keys, KEEP));
      |Run(events, Every(depth, ln, true)).rows| < |Run(events, Every(depth, ln, false)).rows|
  {
    var capped, full := Every(depth, ln, true), Every(depth, ln, false);
    var book := Ladder(CAP + 1);
    LadderSize(CAP + 1);
    var kept := TopN(true, book.Keys, KEEP);
    assert |kept| == KEEP;
    hide Run, Prune, TopN, Fill, Ladder, Withdrawals, LoneAsk, Withdraw;
    Overfilled(capped);
    Overfilled(full);
    PruneIsSmall(book);
    PruningCanHideTheBook(true, book);
    Withdrawn(Fill(CAP + 1), kept, capped);
    Withdrawn(Fill(CAP + 1), kept, full);
    SizeOfKeys(Withdraw(book, kept));
  }

  lemma SizeOfKeys(book: Side)
    requires |book| > 0
    ensures book.Keys != {}
  {}
}
