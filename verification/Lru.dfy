/**
 Least-recently-used residency under two budgets (the eviction rule of research/mds/sigcache.py): what stays
 resident is always the longest most-recent stretch of everything ever used that fits both budgets.
 */
module Lru {

  /** Budgets on the number of entries and on their total size. */
  datatype Budget = Budget(items: int, bytes: int)

  function Load(keys: seq<string>, weight: string -> nat): nat {
    if |keys| == 0 then 0 else weight(keys[0]) + Load(keys[1..], weight)
  }

  predicate Fits(keys: seq<string>, weight: string -> nat, b: Budget) {
    |keys| <= b.items && Load(keys, weight) <= b.bytes
  }

  predicate Distinct(keys: seq<string>) {
    forall i, j :: 0 <= i < j < |keys| ==> keys[i] != keys[j]
  }

  /** Drops from the old end until both budgets are met or nothing is left. */
  function Evict(keys: seq<string>, weight: string -> nat, b: Budget): seq<string> {
    if |keys| == 0 || Fits(keys, weight, b) then keys else Evict(keys[1..], weight, b)
  }

  function Without(keys: seq<string>, k: string): seq<string> {
    if |keys| == 0 then [] else (if keys[0] == k then [] else [keys[0]]) + Without(keys[1..], k)
  }

  /** The use order after k is used again. */
  function Used(keys: seq<string>, k: string): seq<string> {
    Without(keys, k) + [k]
  }

  /**
   `resident` is the end of the use order `all`, meets the budgets unless nothing is left, and no longer end
   of the use order meets them.
   */
  ghost predicate LongestFit(resident: seq<string>, all: seq<string>, weight: string -> nat, b: Budget) {
    exists n :: Cut(resident, all, n, weight, b)
  }

  ghost predicate Cut(resident: seq<string>, all: seq<string>, n: int, weight: string -> nat, b: Budget) {
    && 0 <= n <= |all| && resident == all[n..]
    && (resident == [] || Fits(resident, weight, b))
    && forall m :: 0 <= m < n ==> !Fits(all[m..], weight, b)
  }

  lemma {:induction false} LoadAppend(a: seq<string>, b: seq<string>, weight: string -> nat)
    ensures Load(a + b, weight) == Load(a, weight) + Load(b, weight)
  {
    if |a| == 0 {
      assert a + b == b;
    } else {
      assert (a + b)[1..] == a[1..] + b;
      LoadAppend(a[1..], b, weight);
    }
  }

  /** Eviction stops as soon as the count and the total size are both within budget, or nothing is left. */
  lemma {:induction false} EvictsUntilBudgetsHold(keys: seq<string>, weight: string -> nat, b: Budget) returns (n: nat)
    ensures n <= |keys| && Evict(keys, weight, b) == keys[n..]
    ensures n == |keys| || (|keys| - n <= b.items && Load(keys[n..], weight) <= b.bytes)
    ensures forall m :: 0 <= m < n ==> |keys| - m > b.items || Load(keys[m..], weight) > b.bytes
  {
    n := 0;
    if |keys| > 0 && !Fits(keys, weight, b) {
      var rest := EvictsUntilBudgetsHold(keys[1..], weight, b);
      n := rest + 1;
      assert keys[1..][rest..] == keys[n..] && keys[0..] == keys;
      forall m | 0 <= m < n ensures |keys| - m > b.items || Load(keys[m..], weight) > b.bytes {
        if m > 0 {
          assert keys[1..][m - 1..] == keys[m..];
        }
      }
    }
  }

  lemma {:induction false} WithoutMembers(keys: seq<string>, k: string)
    ensures forall x :: x in Without(keys, k) <==> x in keys && x != k
    ensures |Without(keys, k)| <= |keys|
    ensures k !in keys ==> Without(keys, k) == keys
  {
    if |keys| > 0 {
      WithoutMembers(keys[1..], k);
    }
  }

  lemma {:induction false} WithoutDistinct(keys: seq<string>, k: string)
    requires Distinct(keys)
    ensures Distinct(Without(keys, k)) && Distinct(Used(keys, k))
  {
    WithoutMembers(keys, k);
    if |keys| > 0 {
      WithoutDistinct(keys[1..], k);
      WithoutMembers(keys[1..], k);
      var rest := Without(keys[1..], k);
      forall i | 0 <= i < |rest| ensures rest[i] != keys[0] {
        assert rest[i] in rest;
        var j :| 0 <= j < |keys[1..]| && keys[1..][j] == rest[i];
        assert keys[j + 1] == rest[i];
      }
    }
  }

  lemma {:induction false} WithoutAppend(a: seq<string>, b: seq<string>, k: string)
    ensures Without(a + b, k) == Without(a, k) + Without(b, k)
  {
    if |a| == 0 {
      assert a + b == b;
    } else {
      assert (a + b)[1..] == a[1..] + b;
      WithoutAppend(a[1..], b, k);
    }
  }

  /** A use of a resident key rearranges the list without changing what it costs. */
  lemma {:induction false} UsedCosts(keys: seq<string>, k: string, weight: string -> nat)
    requires Distinct(keys) && k in keys
    ensures |Used(keys, k)| == |keys| && Load(Used(keys, k), weight) == Load(keys, weight)
  {
    LoadAppend(Without(keys, k), [k], weight);
    assert Load([k], weight) == weight(k) + Load([], weight);
    if keys[0] == k {
      assert k !in keys[1..] by {
        forall j | 0 <= j < |keys[1..]| ensures keys[1..][j] != k { assert keys[j + 1] != keys[0]; }
      }
      WithoutMembers(keys[1..], k);
      assert Without(keys, k) == keys[1..];
    } else {
      assert Without(keys, k) == [keys[0]] + Without(keys[1..], k);
      LoadAppend([keys[0]], Without(keys[1..], k), weight);
      assert Load([keys[0]], weight) == weight(keys[0]) + Load([], weight);
      UsedCosts(keys[1..], k, weight);
      LoadAppend(Without(keys[1..], k), [k], weight);
    }
  }

  /** `older` precedes the resident list in the use order, and no end of it fits together with that list. */
  ghost predicate Precedes(older: seq<string>, resident: seq<string>, weight: string -> nat, b: Budget) {
    forall j :: 0 <= j < |older| ==> !Fits(older[j..] + resident, weight, b)
  }

  lemma SplitCut(resident: seq<string>, all: seq<string>, weight: string -> nat, b: Budget) returns (older: seq<string>)
    requires LongestFit(resident, all, weight, b)
    ensures all == older + resident && Precedes(older, resident, weight, b)
    ensures resident == [] || Fits(resident, weight, b)
  {
    hide Fits;
    var n :| Cut(resident, all, n, weight, b);
    older := all[..n];
    forall j | 0 <= j < |older| ensures !Fits(older[j..] + resident, weight, b) {
      assert older[j..] + resident == all[j..];
    }
  }

  lemma JoinCut(older: seq<string>, resident: seq<string>, weight: string -> nat, b: Budget)
    requires Precedes(older, resident, weight, b) && (resident == [] || Fits(resident, weight, b))
    ensures LongestFit(resident, older + resident, weight, b)
  {
    hide Fits;
    var all, n := older + resident, |older|;
    forall m | 0 <= m < n ensures !Fits(all[m..], weight, b) {
      assert all[m..] == older[m..] + resident;
    }
    assert Cut(resident, all, n, weight, b);
  }

  /** Using a resident key moves it to the recent end of both lists. */
  lemma HitKeepsLongestFit(resident: seq<string>, all: seq<string>, k: string, weight: string -> nat, b: Budget)
    requires LongestFit(resident, all, weight, b) && Distinct(all) && k in resident
    ensures LongestFit(Used(resident, k), Used(all, k), weight, b)
  {
    var older := SplitCut(resident, all, weight, b);
    DistinctParts(older, resident);
    WithoutAppend(older, resident, k);
    WithoutMembers(older, k);
    assert Used(all, k) == older + Used(resident, k);
    UsedCosts(resident, k, weight);
    assert Fits(Used(resident, k), weight, b);
    hide Load, Without, Used, Fits, LongestFit;
    forall j | 0 <= j < |older| ensures !Fits(older[j..] + Used(resident, k), weight, b) {
      SameCostTooMuch(older[j..], resident, Used(resident, k), weight, b);
    }
    JoinCut(older, Used(resident, k), weight, b);
  }

  lemma SameCostTooMuch(older: seq<string>, a: seq<string>, c: seq<string>, weight: string -> nat, b: Budget)
    requires !Fits(older + a, weight, b) && |a| == |c| && Load(a, weight) == Load(c, weight)
    ensures !Fits(older + c, weight, b)
  {
    LoadAppend(older, a, weight);
    LoadAppend(older, c, weight);
  }

  lemma DistinctParts(a: seq<string>, b: seq<string>)
    requires Distinct(a + b)
    ensures Distinct(a) && Distinct(b) && forall x :: x in a ==> x !in b
  {
    forall i, j | 0 <= i < |a| && 0 <= j < |b| ensures a[i] != b[j] {
      assert (a + b)[i] == a[i] && (a + b)[|a| + j] == b[j];
    }
    forall i, j | 0 <= i < j < |a| ensures a[i] != a[j] { assert (a + b)[i] != (a + b)[j]; }
    forall i, j | 0 <= i < j < |b| ensures b[i] != b[j] { assert (a + b)[|a| + i] != (a + b)[|a| + j]; }
  }

  /** The ends of the older stretch stay too much when k leaves it and joins the recent end. */
  lemma {:induction false} OlderTooMuch(older: seq<string>, resident: seq<string>, k: string, weight: string -> nat, b: Budget, m: nat)
    requires Distinct(older) && k !in resident && m < |Without(older, k)|
    requires Precedes(older, resident, weight, b)
    ensures !Fits(Without(older, k)[m..] + resident + [k], weight, b)
    decreases |older|
  {
    hide Fits, Load;
    WithoutMembers(older, k);
    if m > 0 || older[0] == k {
      var rest := older[1..];
      assert forall j :: 0 <= j < |rest| ==> rest[j..] == older[j + 1..];
      if older[0] == k {
        assert k !in rest by {
          forall j | 0 <= j < |rest| ensures rest[j] != k { assert older[j + 1] != older[0]; }
        }
        WithoutMembers(rest, k);
        assert Without(older, k) == rest;
        Grows(rest[m..] + resident, [k], weight, b);
      } else {
        assert Without(older, k)[m..] == Without(rest, k)[m - 1..];
        OlderTooMuch(rest, resident, k, weight, b, m - 1);
      }
    } else {
      var whole := Without(older, k) + resident + [k];
      assert Without(older, k)[0..] == Without(older, k);
      assert older[0..] == older;
      WholeTooMuch(older, resident, k, weight, b);
    }
  }

  lemma Grows(a: seq<string>, c: seq<string>, weight: string -> nat, b: Budget)
    requires !Fits(a, weight, b)
    ensures !Fits(a + c, weight, b)
  {
    LoadAppend(a, c, weight);
  }

  lemma WholeTooMuch(older: seq<string>, resident: seq<string>, k: string, weight: string -> nat, b: Budget)
    requires Distinct(older) && !Fits(older + resident, weight, b)
    ensures !Fits(Without(older, k) + resident + [k], weight, b)
  {
    LoadAppend(older, resident, weight);
    LoadAppend(Without(older, k) + resident, [k], weight);
    LoadAppend(Without(older, k), resident, weight);
    if k in older {
      UsedCosts(older, k, weight);
      LoadAppend(Without(older, k), [k], weight);
    } else {
      WithoutMembers(older, k);
    }
  }

  /** Evicting from the old end finds the longest fit. */
  lemma {:induction false} EvictFits(keys: seq<string>, weight: string -> nat, b: Budget) returns (gone: seq<string>)
    ensures keys == gone + Evict(keys, weight, b) && Precedes(gone, Evict(keys, weight, b), weight, b)
    ensures Evict(keys, weight, b) == [] || Fits(Evict(keys, weight, b), weight, b)
  {
    gone := [];
    if |keys| > 0 && !Fits(keys, weight, b) {
      var rest := EvictFits(keys[1..], weight, b);
      gone := [keys[0]] + rest;
      var left := Evict(keys, weight, b);
      forall j | 0 <= j < |gone| ensures !Fits(gone[j..] + left, weight, b) {
        if j == 0 {
          assert gone[0..] + left == keys;
        } else {
          assert gone[j..] == rest[j - 1..];
        }
      }
    }
  }

  lemma PrecedesJoin(kept: seq<string>, gone: seq<string>, left: seq<string>, weight: string -> nat, b: Budget)
    requires Precedes(gone, left, weight, b) && Precedes(kept, gone + left, weight, b)
    ensures Precedes(kept + gone, left, weight, b)
  {
    hide Fits;
    forall j | 0 <= j < |kept + gone| ensures !Fits((kept + gone)[j..] + left, weight, b) {
      if j < |kept| {
        assert (kept + gone)[j..] + left == kept[j..] + (gone + left);
      } else {
        assert (kept + gone)[j..] == gone[j - |kept|..];
      }
    }
  }

  lemma OlderPrecedes(older: seq<string>, resident: seq<string>, k: string, weight: string -> nat, b: Budget)
    requires Distinct(older) && k !in resident && Precedes(older, resident, weight, b)
    ensures Precedes(Without(older, k), resident + [k], weight, b)
  {
    hide Fits, Without, Distinct;
    forall j | 0 <= j < |Without(older, k)| ensures !Fits(Without(older, k)[j..] + (resident + [k]), weight, b) {
      OlderTooMuch(older, resident, k, weight, b, j);
      assert Without(older, k)[j..] + (resident + [k]) == Without(older, k)[j..] + resident + [k];
    }
  }

  lemma UsedSplit(older: seq<string>, resident: seq<string>, k: string)
    requires k !in resident
    ensures Used(older + resident, k) == Without(older, k) + (resident + [k])
  {
    WithoutAppend(older, resident, k);
    WithoutMembers(resident, k);
  }

  /** Bringing in a key that is not resident, and evicting, keeps the longest fit. */
  lemma MissKeepsLongestFit(resident: seq<string>, all: seq<string>, k: string, weight: string -> nat, b: Budget)
    requires LongestFit(resident, all, weight, b) && Distinct(all) && k !in resident
    ensures LongestFit(Evict(resident + [k], weight, b), Used(all, k), weight, b)
  {
    hide *;
    var older := SplitCut(resident, all, weight, b);
    DistinctParts(older, resident);
    var kept, recent := Without(older, k), resident + [k];
    UsedSplit(older, resident, k);
    OlderPrecedes(older, resident, k, weight, b);
    var gone := EvictFits(recent, weight, b);
    PrecedesJoin(kept, gone, Evict(recent, weight, b), weight, b);
    JoinCut(kept + gone, Evict(recent, weight, b), weight, b);
    assert kept + gone + Evict(recent, weight, b) == kept + recent;
  }
}
