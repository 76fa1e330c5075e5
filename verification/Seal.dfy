/**
 The hash-chained seal over a run's results (harness/integrity.py). Hashing, canonical JSON and HMAC are
 parameters. A hash with short outputs has collisions, so nothing here assumes it injective: each soundness
 result instead exhibits the collision that any undetected change would amount to.
 */
module Seal {
  import opened Reals

  /** A result as far as sealing sees it: its id and its canonical verdict text. */
  datatype Result = Result(id: Option<string>, canonical: string)

  datatype Leaf = Leaf(id: Option<string>, hash: string)

  datatype SealRecord = SealRecord(leaves: seq<Leaf>, chainHead: string, count: nat, signature: Option<string>)

  datatype Verdict = Verdict(ok: bool, integrityOk: bool, authenticityOk: Option<bool>, tamperedAt: Option<string>)

  type Hash = string -> string
  type Mac = (string, string) -> string

  const SEED := "lab-seal-v1"
  const DIGEST: nat := 64

  /** Hex digests all have the same length. */
  ghost predicate FixedLength(h: Hash) {
    forall x :: |h(x)| == DIGEST
  }

  ghost predicate Digests(leaves: seq<string>) {
    forall i :: 0 <= i < |leaves| ==> |leaves[i]| == DIGEST
  }

  function Chain(h: Hash, leaves: seq<string>): string {
    if |leaves| == 0 then h(SEED) else h(Chain(h, leaves[..|leaves| - 1]) + leaves[|leaves| - 1])
  }

  function Leaves(h: Hash, results: seq<Result>): (l: seq<Leaf>)
    ensures |l| == |results|
  {
    seq(|results|, i requires 0 <= i < |results| => Leaf(results[i].id, h(results[i].canonical)))
  }

  function Hashes(leaves: seq<Leaf>): (s: seq<string>)
    ensures |s| == |leaves|
  {
    seq(|leaves|, i requires 0 <= i < |leaves| => leaves[i].hash)
  }

  method ChainHead(h: Hash, leaves: seq<string>) returns (prev: string)
    ensures prev == Chain(h, leaves)
  {
    prev := h(SEED);
    for i := 0 to |leaves|
      invariant prev == Chain(h, leaves[..i])
    {
      assert leaves[..i + 1][..i] == leaves[..i];
      prev := h(prev + leaves[i]);
    }
    assert leaves[..|leaves|] == leaves;
  }

  /** An empty key counts as no key when sealing. */
  function SealOf(h: Hash, mac: Mac, results: seq<Result>, key: Option<string>): SealRecord {
    var leaves := Leaves(h, results);
    var head := Chain(h, Hashes(leaves));
    SealRecord(leaves, head, |leaves|, if key.Some? && key.value != "" then Some(mac(key.value, head)) else None)
  }

  // -------------------------------------------------------------------------------- verification

  /** The first position at which two leaf lists differ, their common length if there is none. */
  ghost predicate FirstDifference(a: seq<Leaf>, b: seq<Leaf>, k: nat) {
    && k <= |a| && k <= |b| && (forall i :: 0 <= i < k ==> a[i] == b[i])
    && (k == |a| == |b| || k == |a| < |b| || k == |b| < |a| || (k < |a| && k < |b| && a[k] != b[k]))
  }

  /** The id reported for a difference at position k: the present result's, or the removed one's. */
  function Culprit(sealed: seq<Leaf>, now: seq<Leaf>, k: nat): Option<string>
    requires k <= |sealed| && k <= |now|
  {
    if k < |now| then now[k].id else if k < |sealed| then sealed[k].id else None
  }

  /** Every leaf carries an id. */
  predicate AllNamed(leaves: seq<Leaf>) {
    forall i :: 0 <= i < |leaves| ==> leaves[i].id.Some?
  }

  /** With ids on every leaf, a culprit is named exactly when the lists differ, and the position it is named for is
      the only first difference there is. */
  lemma CulpritIsFirstChange(sealed: seq<Leaf>, now: seq<Leaf>, k: nat)
    requires FirstDifference(sealed, now, k) && AllNamed(sealed) && AllNamed(now)
    ensures Culprit(sealed, now, k).Some? <==> sealed != now
    ensures forall j: nat :: FirstDifference(sealed, now, j) ==> j == k
  {}

  method VerifyReport(h: Hash, mac: Mac, results: seq<Result>, seal: SealRecord, key: Option<string>)
    returns (v: Verdict, ghost diff: nat)
    ensures FirstDifference(seal.leaves, Leaves(h, results), diff)
    ensures v.tamperedAt == Culprit(seal.leaves, Leaves(h, results), diff)
    ensures AllNamed(seal.leaves) && AllNamed(Leaves(h, results)) ==> (v.tamperedAt.None? <==> seal.leaves == Leaves(h, results))
    ensures v.integrityOk == (v.tamperedAt.None? && Chain(h, Hashes(Leaves(h, results))) == seal.chainHead)
    ensures v.authenticityOk == if seal.signature.None? || key.None? then None
                                else Some(mac(key.value, seal.chainHead) == seal.signature.value)
    ensures v.ok == (v.integrityOk && v.authenticityOk != Some(false))
  {
    var recomputed := Leaves(h, results);
    var tamperedAt: Option<string> := None;
    var i := 0;
    var n := if |recomputed| > |seal.leaves| then |recomputed| else |seal.leaves|;
    while i < n
      invariant i <= n && i <= |recomputed| && i <= |seal.leaves|
      invariant (forall j :: 0 <= j < i ==> seal.leaves[j] == recomputed[j]) && tamperedAt == None
    {
      if i >= |seal.leaves| {
        tamperedAt := recomputed[i].id;
        break;
      }
      if i >= |recomputed| {
        tamperedAt := seal.leaves[i].id;
        break;
      }
      if seal.leaves[i].id != recomputed[i].id {
        tamperedAt := recomputed[i].id;
        break;
      }
      if seal.leaves[i].hash != recomputed[i].hash {
        tamperedAt := recomputed[i].id;
        break;
      }
      i := i + 1;
    }
    diff := i;
    if AllNamed(seal.leaves) && AllNamed(recomputed) {
      CulpritIsFirstChange(seal.leaves, recomputed, diff);
    }
    var head := ChainHead(h, Hashes(recomputed));
    var integrityOk := tamperedAt.None? && head == seal.chainHead;
    var authenticityOk: Option<bool> := None;
    if seal.signature.Some? && key.Some? {
      authenticityOk := Some(mac(key.value, seal.chainHead) == seal.signature.value);
    }
    v := Verdict(integrityOk && authenticityOk != Some(false), integrityOk, authenticityOk, tamperedAt);
  }

  // ------------------------------------------------------------------------------------ soundness

  /** Two different inputs the hash maps to one output. */
  ghost predicate Collision(h: Hash, pair: (string, string)) {
    pair.0 != pair.1 && h(pair.0) == h(pair.1)
  }

  /** Walks two chains back from their heads to the first link where their inputs differ. */
  function ChainCollision(h: Hash, a: seq<string>, b: seq<string>): (string, string) {
    var inA := if |a| == 0 then SEED else Chain(h, a[..|a| - 1]) + a[|a| - 1];
    var inB := if |b| == 0 then SEED else Chain(h, b[..|b| - 1]) + b[|b| - 1];
    if inA != inB || |a| == 0 || |b| == 0 then (inA, inB)
    else ChainCollision(h, a[..|a| - 1], b[..|b| - 1])
  }

  lemma SplitLink(x: string, a: string, y: string, b: string)
    requires |x| == |y| && x + a == y + b
    ensures x == y && a == b
  {
    assert x == (x + a)[..|x|] && y == (y + b)[..|x|];
    assert a == (x + a)[|x|..] && b == (y + b)[|x|..];
  }

  /** The chain head determines the whole leaf list, of whatever length: two lists with one head are equal
      or yield a collision. */
  lemma {:induction false} HeadDeterminesLeaves(h: Hash, a: seq<string>, b: seq<string>)
    requires FixedLength(h) && Digests(a) && Digests(b) && Chain(h, a) == Chain(h, b)
    ensures a == b || Collision(h, ChainCollision(h, a, b))
  {
    if |a| > 0 && |b| > 0 {
      var m, n := |a| - 1, |b| - 1;
      var x, y := Chain(h, a[..m]), Chain(h, b[..n]);
      if x + a[m] == y + b[n] {
        SplitLink(x, a[m], y, b[n]);
        HeadDeterminesLeaves(h, a[..m], b[..n]);
        assert a == a[..m] + [a[m]] && b == b[..n] + [b[n]];
      }
    } else if |a| > 0 {
      assert |Chain(h, a[..|a| - 1]) + a[|a| - 1]| == 2 * DIGEST;
    } else if |b| > 0 {
      assert |Chain(h, b[..|b| - 1]) + b[|b| - 1]| == 2 * DIGEST;
    }
  }

  function Canonicals(results: seq<Result>): (s: seq<string>)
    ensures |s| == |results|
  {
    seq(|results|, i requires 0 <= i < |results| => results[i].canonical)
  }

  /** The first pair of differing verdict texts of two equally long lists. */
  function TextCollision(a: seq<Result>, b: seq<Result>): (string, string) {
    if |a| == 0 || |b| == 0 then ("", "")
    else if a[0].canonical != b[0].canonical then (a[0].canonical, b[0].canonical)
    else TextCollision(a[1..], b[1..])
  }

  lemma {:induction false} HashesDetermineTexts(h: Hash, a: seq<Result>, b: seq<Result>)
    requires Hashes(Leaves(h, a)) == Hashes(Leaves(h, b))
    ensures Canonicals(a) == Canonicals(b) || Collision(h, TextCollision(a, b))
  {
    if |a| > 0 {
      var p, q := Hashes(Leaves(h, a)), Hashes(Leaves(h, b));
      assert p[0] == h(a[0].canonical) && q[0] == h(b[0].canonical);
      assert Hashes(Leaves(h, a[1..])) == p[1..] && Hashes(Leaves(h, b[1..])) == q[1..];
      if a[0].canonical == b[0].canonical {
        HashesDetermineTexts(h, a[1..], b[1..]);
        if Canonicals(a[1..]) == Canonicals(b[1..]) {
          assert Canonicals(a) == [a[0].canonical] + Canonicals(a[1..]);
          assert Canonicals(b) == [b[0].canonical] + Canonicals(b[1..]);
        }
      }
    } else {
      assert |b| == 0;
    }
  }

  lemma HashesAreDigests(h: Hash, results: seq<Result>)
    requires FixedLength(h)
    ensures Digests(Hashes(Leaves(h, results)))
  {
    forall i | 0 <= i < |results| ensures |Hashes(Leaves(h, results))[i]| == DIGEST {
      assert Hashes(Leaves(h, results))[i] == h(results[i].canonical);
    }
  }

  /** The verdict `VerifyReport` gives, as a function of where the lists first differ. */
  ghost predicate Passes(h: Hash, results: seq<Result>, seal: SealRecord) {
    && (exists k :: FirstDifference(seal.leaves, Leaves(h, results), k) && Culprit(seal.leaves, Leaves(h, results), k) == None)
    && Chain(h, Hashes(Leaves(h, results))) == seal.chainHead
  }

  /**
   Soundness: if the integrity check passes against a chain head that was sealed over `original`, the
   results carry exactly the sealed verdicts in the sealed order, whatever was done to the seal's own leaf
   list; or the change exhibits a collision of the hash.
   */
  lemma IntegrityImpliesSealedVerdicts(h: Hash, mac: Mac, original: seq<Result>, results: seq<Result>,
                                       seal: SealRecord, key: Option<string>)
    requires FixedLength(h) && seal.chainHead == SealOf(h, mac, original, key).chainHead
    requires Passes(h, results, seal)
    ensures var a, b := Hashes(Leaves(h, results)), Hashes(Leaves(h, original));
      || Canonicals(results) == Canonicals(original)
      || Collision(h, ChainCollision(h, a, b))
      || Collision(h, TextCollision(results, original))
  {
    var a, b := Hashes(Leaves(h, results)), Hashes(Leaves(h, original));
    HashesAreDigests(h, results);
    HashesAreDigests(h, original);
    HeadDeterminesLeaves(h, a, b);
    if a == b {
      HashesDetermineTexts(h, results, original);
    }
  }

  /** Completeness: an untouched report passes against its own seal, with the sealing key or with none. */
  method VerifyUntouched(h: Hash, mac: Mac, results: seq<Result>, key: Option<string>, withKey: bool) returns (v: Verdict)
    ensures v.ok && v.integrityOk && v.tamperedAt == None
    ensures withKey && key.Some? && key.value != "" ==> v.authenticityOk == Some(true)
  {
    var seal := SealOf(h, mac, results, key);
    ghost var diff: nat;
    v, diff := VerifyReport(h, mac, results, seal, if withKey then key else None);
  }

  /** Without an id the change goes unnamed: the first difference is real but no culprit is reported. The
      chain head still catches it. */
  lemma NullIdHidesThePosition(h: Hash)
    requires FixedLength(h) && h("pass") != h("fail")
    ensures var sealed, now := Leaves(h, [Result(None, "pass")]), Leaves(h, [Result(None, "fail")]);
      && FirstDifference(sealed, now, 0) && Culprit(sealed, now, 0) == None
      && (Chain(h, Hashes(now)) != Chain(h, Hashes(sealed)) || Collision(h, ChainCollision(h, Hashes(now), Hashes(sealed))))
  {
    var sealed, now := Leaves(h, [Result(None, "pass")]), Leaves(h, [Result(None, "fail")]);
    assert sealed[0] != now[0];
    assert Hashes(now)[0] != Hashes(sealed)[0];
    HashesAreDigests(h, [Result(None, "pass")]);
    HashesAreDigests(h, [Result(None, "fail")]);
    if Chain(h, Hashes(now)) == Chain(h, Hashes(sealed)) {
      HeadDeterminesLeaves(h, Hashes(now), Hashes(sealed));
    }
  }
}
