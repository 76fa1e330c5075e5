/**
 The pruned book against the full one (research/mds/lob.py:60-116). The source prunes "without affecting any
 feature"; that holds exactly while the levels a feature reads lie within the tightest prune boundary since
 the last snapshot, and fails otherwise.
 */
module OrderBookPruning {
  import opened Reals
  import opened OrderBook

  /** The worst price kept by the tightest prune since the last snapshot; None if none happened. */
  type Edge = Option<Price>

  predicate Inside(bid: bool, p: Price, edge: Edge) {
    edge.None? || Rank(bid, p) >= Rank(bid, edge.value)
  }

  function Within(bid: bool, prices: set<Price>, edge: Edge): set<Price> {
    set p | p in prices && Inside(bid, p, edge)
  }

  /** The capped side is a part of the full one and is missing nothing at or better than the edge. */
  ghost predicate Refines(bid: bool, capped: Side, full: Side, edge: Edge) {
    && (forall p :: p in capped ==> p in full && capped[p] == full[p])
    && (forall p :: p in full && Inside(bid, p, edge) ==> p in capped)
  }

  /** At least n levels of the full side lie within the edge, or all of them do. */
  predicate Covered(bid: bool, prices: set<Price>, edge: Edge, n: nat) {
    Within(bid, prices, edge) == prices || |Within(bid, prices, edge)| >= n
  }

  // ------------------------------------------------------------------------- what the features read

  /** Sides that agree down to the edge have the same best price while one level lies within it. */
  lemma BestAgrees(bid: bool, capped: set<Price>, full: set<Price>, edge: Edge)
    requires capped <= full && Within(bid, full, edge) <= capped && Within(bid, full, edge) != {}
    ensures Best(bid, capped) == Best(bid, full) && Best(bid, full) in Within(bid, full, edge)
  {
    var w :| w in Within(bid, full, edge);
    var p := Best(bid, full);
    assert Rank(bid, w) <= Rank(bid, p);
    assert p in Within(bid, full, edge);
    assert p in capped;
    assert Rank(bid, p) <= Rank(bid, Best(bid, capped)) <= Rank(bid, p);
  }

  lemma {:induction false} TopAgrees(bid: bool, capped: set<Price>, full: set<Price>, edge: Edge, n: nat)
    requires capped <= full && Within(bid, full, edge) <= capped && |Within(bid, full, edge)| >= n
    ensures TopN(bid, capped, n) == TopN(bid, full, n)
    decreases n
  {
    hide TopN, Best, Inside, IsBest;
    if n == 0 {
      TopNone(bid, capped);
      TopNone(bid, full);
    } else {
      var w := Within(bid, full, edge);
      assert w != {};
      BestAgrees(bid, capped, full, edge);
      var p := Best(bid, full);
      assert p in w && p in capped;
      WithinRest(bid, full, edge, p);
      TopAgrees(bid, capped - {p}, full - {p}, edge, n - 1);
      TopNext(bid, capped, n);
      TopNext(bid, full, n);
    }
  }

  lemma WithinRest(bid: bool, full: set<Price>, edge: Edge, p: Price)
    requires p in Within(bid, full, edge)
    ensures Within(bid, full - {p}, edge) == Within(bid, full, edge) - {p}
    ensures |Within(bid, full - {p}, edge)| == |Within(bid, full, edge)| - 1
  {
    assert Within(bid, full - {p}, edge) == Within(bid, full, edge) - {p};
  }

  lemma {:induction false} SizesAgree(capped: Side, full: Side, prices: seq<Price>)
    requires forall p :: p in capped ==> p in full && capped[p] == full[p]
    requires forall p :: p in prices ==> p in capped
    ensures SizeOf(capped, prices) == SizeOf(full, prices)
  {
    if |prices| > 0 {
      SizesAgree(capped, full, prices[1..]);
    }
  }

  /** Top-of-book and depth read the same off both sides while n levels lie within the edge. */
  lemma SideFeaturesAgree(bid: bool, capped: Side, full: Side, edge: Edge, n: nat)
    requires Refines(bid, capped, full, edge) && Covered(bid, full.Keys, edge, Max1(n))
    ensures capped.Keys == {} <==> full.Keys == {}
    ensures full.Keys != {} ==> Best(bid, capped.Keys) == Best(bid, full.Keys)
    ensures full.Keys != {} ==> capped[Best(bid, full.Keys)] == full[Best(bid, full.Keys)]
    ensures Depth(bid, capped, n) == Depth(bid, full, n)
  {
    var w := Within(bid, full.Keys, edge);
    assert w <= capped.Keys <= full.Keys;
    if w == full.Keys {
      assert capped == full;
    } else {
      assert w != {};
      BestAgrees(bid, capped.Keys, full.Keys, edge);
      TopAgrees(bid, capped.Keys, full.Keys, edge, n);
      SizesAgree(capped, full, TopN(bid, capped.Keys, n));
    }
  }

  function Max1(n: nat): nat {
    if n == 0 then 1 else n
  }

  // -------------------------------------------------------------------------- how the edge moves

  /** The edge after pruning a side: the worst price kept, if that is tighter than before. */
  ghost function EdgeAfter(bid: bool, capped: Side, edge: Edge): Edge {
    if |capped| <= CAP then edge
    else
      var kept := TopN(bid, capped.Keys, KEEP);
      Tighter(bid, kept[|kept| - 1], edge)
  }

  ghost function Tighter(bid: bool, worst: Price, edge: Edge): Edge {
    if Inside(bid, worst, edge) then Some(worst) else edge
  }

  /** Everything left out of the n best is no better than any of them. */
  lemma {:induction false} TopDominates(bid: bool, prices: set<Price>, n: nat)
    ensures var top := TopN(bid, prices, n);
      forall p, q :: p in top && q in prices && q !in top ==> Rank(bid, q) <= Rank(bid, p)
    decreases n
  {
    if n > 0 && prices != {} {
      var b := Best(bid, prices);
      var rest := TopN(bid, prices - {b}, n - 1);
      TopDominates(bid, prices - {b}, n - 1);
      assert TopN(bid, prices, n) == [b] + rest;
      forall p, q | p in [b] + rest && q in prices && q !in [b] + rest ensures Rank(bid, q) <= Rank(bid, p) {
        assert b in [b] + rest;
        assert q in prices - {b};
      }
    }
  }

  /** Two different prices never share a rank. */
  lemma RankInjective(bid: bool, p: Price, q: Price)
    requires Rank(bid, p) == Rank(bid, q)
    ensures p == q
  {}

  lemma PruneRefines(bid: bool, capped: Side, full: Side, edge: Edge)
    requires Refines(bid, capped, full, edge)
    ensures Refines(bid, Prune(bid, capped), full, EdgeAfter(bid, capped, edge))
  {
    if |capped| > CAP {
      var kept := TopN(bid, capped.Keys, KEEP);
      KeptDownToWorst(bid, capped.Keys, kept, KEEP);
      hide TopN, Keep, Tighter;
      KeepRefines(bid, capped, full, edge, kept);
    }
  }

  lemma KeepRefines(bid: bool, capped: Side, full: Side, edge: Edge, kept: seq<Price>)
    requires Refines(bid, capped, full, edge) && |kept| > 0
    requires forall p :: p in capped.Keys && Rank(bid, p) >= Rank(bid, kept[|kept| - 1]) ==> p in kept
    ensures Refines(bid, Keep(capped, kept), full, Tighter(bid, kept[|kept| - 1], edge))
  {
    forall p | p in full && Inside(bid, p, Tighter(bid, kept[|kept| - 1], edge)) ensures p in Keep(capped, kept) {
      assert p in capped.Keys && p in kept;
    }
  }

  /** The n best prices are everything at or better than the worst of them. */
  lemma KeptDownToWorst(bid: bool, prices: set<Price>, kept: seq<Price>, n: nat)
    requires kept == TopN(bid, prices, n) && |kept| > 0
    ensures forall p :: p in prices && Rank(bid, p) >= Rank(bid, kept[|kept| - 1]) ==> p in kept
  {
    TopDominates(bid, prices, n);
    var worst := kept[|kept| - 1];
    assert worst in kept;
    forall p | p in prices && Rank(bid, p) >= Rank(bid, worst) ensures p in kept {
      if p !in kept {
        assert Rank(bid, p) <= Rank(bid, worst);
        RankInjective(bid, p, worst);
        assert false;
      }
    }
  }

  lemma QuoteRefines(bid: bool, capped: Side, full: Side, edge: Edge, price: Price, size: real)
    requires Refines(bid, capped, full, edge)
    ensures Refines(bid, Quote(capped, price, size), Quote(full, price, size), edge)
  {}

  // ------------------------------------------------------------------------------- whole replays

  /** The prune boundaries of both sides, kept beside the two replays. */
  datatype Edges = Edges(bid: Edge, ask: Edge)

  /** The two replays differ only in the levels beyond the edges. */
  ghost predicate Related(capped: Replay, full: Replay, edges: Edges) {
    && full == full.(bids := full.bids)
    && capped.(bids := full.bids, asks := full.asks) == full
    && Refines(true, capped.bids, full.bids, edges.bid)
    && Refines(false, capped.asks, full.asks, edges.ask)
  }

  /** Edges are forgotten when a snapshot begins and tightened when a change prunes a side. */
  ghost function NextEdges(capped: Replay, e: Event, edges: Edges): Edges {
    var (s, changed) := Absorb(capped, e);
    if e.kind == Snapshot then
      if !capped.inSnap || capped.snapSeq != Some(e.seqNo) then Edges(None, None) else edges
    else if changed then Edges(EdgeAfter(true, s.bids, edges.bid), EdgeAfter(false, s.asks, edges.ask))
    else edges
  }

  ghost function EdgesOf(events: seq<Event>, c: Config): Edges
    requires c.sampleEvery > 0
  {
    if |events| == 0 then Edges(None, None)
    else
      var init, last := events[..|events| - 1], events[|events| - 1];
      NextEdges(Run(init, c), last, EdgesOf(init, c))
  }

  /** After this event the levels the features read lie within the edges on both sides. */
  ghost predicate BothCovered(full: Replay, edges: Edges, depth: nat) {
    && Covered(true, full.bids.Keys, edges.bid, Max1(depth))
    && Covered(false, full.asks.Keys, edges.ask, Max1(depth))
  }

  lemma AbsorbRelated(capped: Replay, full: Replay, e: Event, edges: Edges)
    requires Related(capped, full, edges)
    ensures var edges' := if e.kind == Snapshot then NextEdges(capped, e, edges) else edges;
      Absorb(capped, e).1 == Absorb(full, e).1 && Related(Absorb(capped, e).0, Absorb(full, e).0, edges')
  {
    if e.kind == Update {
      if e.bid {
        QuoteRefines(true, capped.bids, full.bids, edges.bid, e.price, e.size);
      } else {
        QuoteRefines(false, capped.asks, full.asks, edges.ask, e.price, e.size);
      }
    }
  }

  lemma ObserveRelated(capped: Replay, full: Replay, edges: Edges, ts: int, c: Config, r: Config)
    requires Related(capped, full, edges) && BothCovered(full, edges, c.depth)
    requires c.sampleEvery == r.sampleEvery > 0 && c.depth == r.depth && c.ln == r.ln
    ensures Related(Observe(capped, ts, c), Observe(full, ts, r), edges)
  {
    hide Refines, Covered, Features, Depth, IsBest, Best;
    SideFeaturesAgree(true, capped.bids, full.bids, edges.bid, c.depth);
    SideFeaturesAgree(false, capped.asks, full.asks, edges.ask, c.depth);
  }

  lemma StepRelated(capped: Replay, full: Replay, e: Event, edges: Edges, c: Config)
    requires Related(capped, full, edges) && c.sampleEvery > 0 && c.cap
    requires var full' := Step(full, e, c.(cap := false));
      e.kind != Snapshot ==> BothCovered(full', NextEdges(capped, e, edges), c.depth)
    ensures Related(Step(capped, e, c), Step(full, e, c.(cap := false)), NextEdges(capped, e, edges))
  {
    AbsorbRelated(capped, full, e, edges);
    var (s, changed) := Absorb(capped, e);
    var (f, _) := Absorb(full, e);
    if changed {
      var edges' := NextEdges(capped, e, edges);
      PruneRefines(true, s.bids, f.bids, edges.bid);
      PruneRefines(false, s.asks, f.asks, edges.ask);
      ObserveKeepsBooks(f, e.ts, c.(cap := false));
      hide Observe, Prune, Refines, EdgeAfter, BothCovered;
      assert Related(PruneBoth(s, true), f, edges');
      ObserveRelated(PruneBoth(s, true), f, edges', e.ts, c, c.(cap := false));
    }
  }

  lemma ObserveKeepsBooks(s: Replay, ts: int, c: Config)
    requires c.sampleEvery > 0
    ensures Observe(s, ts, c).bids == s.bids && Observe(s, ts, c).asks == s.asks
  {
    hide Features, Depth, IsBest;
  }

  /** The features are within the edges after every event of the session. */
  ghost predicate AlwaysCovered(events: seq<Event>, c: Config)
    requires c.sampleEvery > 0
  {
    forall k :: 0 < k <= |events| && events[k - 1].kind != Snapshot ==>
      BothCovered(Run(events[..k], c.(cap := false)), EdgesOf(events[..k], c), c.depth)
  }

  lemma {:induction false} RunsRelated(events: seq<Event>, c: Config)
    requires c.sampleEvery > 0 && c.cap && AlwaysCovered(events, c)
    ensures Related(Run(events, c), Run(events, c.(cap := false)), EdgesOf(events, c))
  {
    if |events| > 0 {
      var n := |events| - 1;
      var init := events[..n];
      assert AlwaysCovered(init, c) by {
        forall k | 0 < k <= n && init[k - 1].kind != Snapshot
          ensures BothCovered(Run(init[..k], c.(cap := false)), EdgesOf(init[..k], c), c.depth)
        {
          assert init[..k] == events[..k];
        }
      }
      RunsRelated(init, c);
      assert events[..n + 1] == events;
      hide Step, NextEdges, BothCovered, Related;
      StepRelated(Run(init, c), Run(init, c.(cap := false)), events[n], EdgesOf(init, c), c);
    }
  }

  /**
   Pruning is invisible while it is covered: if after every event at least `depth` levels (and at least one)
   of each full side lie within its prune boundary, the pruned replay samples exactly the rows of the
   unpruned one.
   */
  lemma PruningPreservesRows(events: seq<Event>, c: Config)
    requires c.sampleEvery > 0 && c.cap && AlwaysCovered(events, c)
    ensures Run(events, c).rows == Run(events, c.(cap := false)).rows
    ensures Run(events, c).lastMid == Run(events, c.(cap := false)).lastMid
  {
    RunsRelated(events, c);
  }

  // ------------------------------------------------------------------ exactly when it is invisible

  /** The full sides a capped side and its edge leave possible all have the best price it shows. */
  ghost predicate BestIsCertain(bid: bool, capped: Side, edge: Edge) {
    forall full: Side :: Refines(bid, capped, full, edge) && full.Keys != {} ==>
      capped.Keys != {} && Best(bid, full.Keys) == Best(bid, capped.Keys)
  }

  /** A price worse than the edge, and better than anything shown. */
  function Hidden(bid: bool, capped: Side, edge: Price): Price {
    if capped.Keys == {} then Price(if bid then edge.v - 1.0 else edge.v + 1.0)
    else Price((edge.v + Best(bid, capped.Keys).v) / 2.0)
  }

  /**
   The best price shown can be trusted exactly when it lies within the edge: otherwise some full book agrees
   with everything the pruned one knows and has another best price.
   */
  lemma BestCertainIffInside(bid: bool, capped: Side, edge: Price)
    ensures BestIsCertain(bid, capped, Some(edge)) <==> capped.Keys != {} && Inside(bid, Best(bid, capped.Keys), Some(edge))
  {
    if capped.Keys != {} && Inside(bid, Best(bid, capped.Keys), Some(edge)) {
      forall full: Side | Refines(bid, capped, full, Some(edge)) && full.Keys != {}
        ensures capped.Keys != {} && Best(bid, full.Keys) == Best(bid, capped.Keys)
      {
        var p := Best(bid, capped.Keys);
        assert p in full.Keys;
        assert p in Within(bid, full.Keys, Some(edge));
        BestAgrees(bid, capped.Keys, full.Keys, Some(edge));
      }
    } else {
      var x := Hidden(bid, capped, edge);
      var full := capped[x := 1.0];
      HiddenIsBetter(bid, capped, edge);
      assert Refines(bid, capped, full, Some(edge));
      assert full.Keys == capped.Keys + {x};
      assert x in full.Keys;
      assert capped.Keys != {} ==> Best(bid, full.Keys) != Best(bid, capped.Keys);
    }
  }

  lemma HiddenIsBetter(bid: bool, capped: Side, edge: Price)
    requires capped.Keys == {} || !Inside(bid, Best(bid, capped.Keys), Some(edge))
    ensures var x := Hidden(bid, capped, edge);
      && !Inside(bid, x, Some(edge)) && x !in capped
      && forall p :: p in capped ==> Rank(bid, p) < Rank(bid, x)
  {
    if capped.Keys != {} {
      var b := Best(bid, capped.Keys);
      forall p | p in capped ensures Rank(bid, p) < Rank(bid, Hidden(bid, capped, edge)) {
        assert p in capped.Keys;
        assert Rank(bid, p) <= Rank(bid, b);
      }
    }
  }

  /** The n best levels are the same on every full side that a capped side and its edge leave possible. */
  ghost predicate TopIsCertain(bid: bool, capped: Side, edge: Edge, n: nat) {
    forall full: Side :: Refines(bid, capped, full, edge) ==> TopN(bid, full.Keys, n) == TopN(bid, capped.Keys, n)
  }

  /** A price with fewer than n better ones is among the n best. */
  lemma {:induction false} TopContains(bid: bool, prices: set<Price>, n: nat, x: Price)
    requires x in prices && |Better(bid, prices, x)| < n
    ensures x in TopN(bid, prices, n)
    decreases n
  {
    var p := Best(bid, prices);
    if p != x {
      assert Rank(bid, x) <= Rank(bid, p);
      if Rank(bid, x) == Rank(bid, p) {
        RankInjective(bid, p, x);
      }
      assert p in Better(bid, prices, x);
      assert Better(bid, prices - {p}, x) == Better(bid, prices, x) - {p};
      assert |Better(bid, prices - {p}, x)| == |Better(bid, prices, x)| - 1;
      TopContains(bid, prices - {p}, n - 1, x);
    }
  }

  function Better(bid: bool, prices: set<Price>, x: Price): set<Price> {
    set p | p in prices && Rank(bid, p) > Rank(bid, x)
  }

  /** The levels shown beyond the edge. */
  function Beyond(bid: bool, prices: set<Price>, edge: Price): set<Price> {
    set p | p in prices && !Inside(bid, p, Some(edge))
  }

  /** A price beyond the edge and better than everything shown there. */
  lemma Between(bid: bool, prices: set<Price>, edge: Price) returns (x: Price)
    ensures !Inside(bid, x, Some(edge)) && x !in prices
    ensures forall p :: p in prices ==> (Rank(bid, p) > Rank(bid, x) <==> Inside(bid, p, Some(edge)))
  {
    var beyond := Beyond(bid, prices, edge);
    if beyond == {} {
      x := Price(if bid then edge.v - 1.0 else edge.v + 1.0);
      forall p | p in prices ensures Inside(bid, p, Some(edge)) {
        assert p !in beyond;
      }
    } else {
      var b := Best(bid, beyond);
      x := Price((edge.v + b.v) / 2.0);
      forall p | p in prices && !Inside(bid, p, Some(edge)) ensures Rank(bid, p) < Rank(bid, x) {
        assert p in beyond;
        assert Rank(bid, p) <= Rank(bid, b);
      }
    }
  }

  lemma EnoughInside(bid: bool, capped: Side, edge: Price, n: nat, full: Side)
    requires |Within(bid, capped.Keys, Some(edge))| >= n && Refines(bid, capped, full, Some(edge))
    ensures TopN(bid, full.Keys, n) == TopN(bid, capped.Keys, n)
  {
    hide TopN;
    assert Within(bid, full.Keys, Some(edge)) == Within(bid, capped.Keys, Some(edge));
    TopAgrees(bid, capped.Keys, full.Keys, Some(edge), n);
  }

  lemma MoreKeys(capped: Side, x: Price)
    ensures capped[x := 1.0].Keys == capped.Keys + {x}
  {}

  lemma TooFewInside(bid: bool, capped: Side, edge: Price, n: nat) returns (full: Side)
    requires |Within(bid, capped.Keys, Some(edge))| < n
    ensures Refines(bid, capped, full, Some(edge)) && TopN(bid, full.Keys, n) != TopN(bid, capped.Keys, n)
  {
    hide TopN, Rank;
    var x := Between(bid, capped.Keys, edge);
    full := capped[x := 1.0];
    MoreKeys(capped, x);
    assert Better(bid, full.Keys, x) == Within(bid, capped.Keys, Some(edge)) by {
      hide *;
      SameBetter(bid, capped.Keys, x, edge);
    }
    TopContains(bid, full.Keys, n, x);
    assert x !in TopN(bid, capped.Keys, n);
  }

  lemma SameBetter(bid: bool, prices: set<Price>, x: Price, edge: Price)
    requires forall p :: p in prices ==> (Rank(bid, p) > Rank(bid, x) <==> Inside(bid, p, Some(edge)))
    ensures Better(bid, prices + {x}, x) == Within(bid, prices, Some(edge))
  {}

  /** The n best levels shown can be trusted exactly when n of the levels shown lie within the edge. */
  lemma TopCertainIffInside(bid: bool, capped: Side, edge: Price, n: nat)
    ensures TopIsCertain(bid, capped, Some(edge), n) <==> |Within(bid, capped.Keys, Some(edge))| >= n
  {
    hide TopN, Refines, Within;
    if |Within(bid, capped.Keys, Some(edge))| >= n {
      forall full: Side | Refines(bid, capped, full, Some(edge)) ensures TopN(bid, full.Keys, n) == TopN(bid, capped.Keys, n) {
        EnoughInside(bid, capped, edge, n, full);
      }
    } else {
      var full := TooFewInside(bid, capped, edge, n);
    }
  }

  /** A side after the given prices are withdrawn, one update of size zero each. */
  function Withdraw(book: Side, prices: seq<Price>): Side {
    if |prices| == 0 then book else Quote(Withdraw(book, prices[..|prices| - 1]), prices[|prices| - 1], 0.0)
  }

  lemma {:induction false} WithdrawLeaves(book: Side, prices: seq<Price>)
    ensures Withdraw(book, prices).Keys == book.Keys - (set p | p in prices)
  {
    if |prices| > 0 {
      var n := |prices| - 1;
      WithdrawLeaves(book, prices[..n]);
      assert prices == prices[..n] + [prices[n]];
    }
  }

  /**
   The source's claim fails on every deep book: prune any side of more than 256 levels, then withdraw the 64
   levels kept. The pruned side is empty, and the feature row is lost, while the real book is almost two
   hundred levels deep.
   */
  lemma PruningCanHideTheBook(bid: bool, book: Side)
    requires |book| > CAP
    ensures var kept := TopN(bid, book.Keys, KEEP);
      && Withdraw(Prune(bid, book), kept).Keys == {}
      && |Withdraw(book, kept)| >= |book| - KEEP > 0
  {
    var kept := TopN(bid, book.Keys, KEEP);
    WithdrawLeaves(Prune(bid, book), kept);
    WithdrawLeaves(book, kept);
    var gone := set p | p in kept;
    SetOfSeq(kept);
    assert gone <= book.Keys;
    assert |book.Keys - gone| == |book.Keys| - |gone|;
    assert |Withdraw(book, kept)| == |Withdraw(book, kept).Keys|;
  }

  lemma {:induction false} SetOfSeq(prices: seq<Price>)
    ensures |set p | p in prices| <= |prices|
  {
    if |prices| > 0 {
      var n := |prices| - 1;
      SetOfSeq(prices[..n]);
      assert (set p | p in prices) == (set p | p in prices[..n]) + {prices[n]};
    }
  }
}
